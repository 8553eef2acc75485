/** `PlanAgent` (`agents/plan.py`): at most fifteen rounds, offered
    `read_file`, `glob`, `grep` and `write_file`; every "- [ ] X" checkbox
    in a reply's content or in a `write_file` content argument becomes a
    task on the board, once per subject; the final output lists the
    agent's tasks as `@@PLAN_TASK@@` lines. The system prompt's wording,
    the plan file's path and whether that file exists at the end are
    parameters. */
module PlanAgent {
  import opened Wrappers
  import opened OrderedMaps
  import opened Text
  import opened Json
  import opened PyValues
  import opened Wire
  import opened ToolBase
  import opened ToolRegistry
  import opened Tasks
  import opened AgentBase

  const MaxTurns: nat := 15

  const AllowedTools: seq<string> := ["read_file", "glob", "grep", "write_file"]

  /** A task board that keeps the store's invariant. */
  type Board = st: TaskStore | Valid(st) witness TaskStore([], 0)

  // ---------------------------------------------------------------------
  // Checkbox extraction: re.findall(r'- \[ \] (.+?)(?:\n|$)', content)
  // ---------------------------------------------------------------------

  const Box: string := "- [ ] "

  /** Index of the first newline, or the length when there is none. */
  function LineEnd(s: string): (r: nat)
    ensures r <= |s|
    ensures forall k :: 0 <= k < r ==> s[k] != '\n'
    ensures r < |s| ==> s[r] == '\n'
  {
    if |s| == 0 || s[0] == '\n' then 0 else 1 + LineEnd(s[1..])
  }

  /** The captures of the checkbox pattern, scanning left to right: after
      "- [ ] " at least one character, then the rest of that line; the
      match consumes the newline that ends it. */
  function Checkboxes(s: string): (r: seq<string>)
    decreases |s|
    ensures forall x :: x in r ==> x != "" && '\n' !in x
    ensures forall x :: x in r ==> exists j :: OccursAt(s, Box + x, j)
  {
    if |s| == 0 then []
    else if StartsWith(s, Box) && |s| > |Box| && s[|Box|] != '\n' then
      var rest := s[|Box|..];
      var e := LineEnd(rest);
      var next := if e < |rest| then rest[e + 1..] else "";
      var tail := Checkboxes(next);
      assert OccursAt(s, Box + rest[..e], 0) by {
        assert s[..|Box| + e] == Box + rest[..e];
      }
      forall x | x in tail
        ensures exists j :: OccursAt(s, Box + x, j)
      {
        var j :| OccursAt(next, Box + x, j);
        var k := if e < |rest| then |Box| + e + 1 else |s|;
        assert s == s[..k] + next;
        OccursShift(s[..k], next, Box + x, j);
      }
      [rest[..e]] + tail
    else
      var tail := Checkboxes(s[1..]);
      forall x | x in tail
        ensures exists j :: OccursAt(s, Box + x, j)
      {
        var j :| OccursAt(s[1..], Box + x, j);
        assert s == s[..1] + s[1..];
        OccursShift(s[..1], s[1..], Box + x, j);
      }
      tail
  }

  /** A line "- [ ] x" followed by a newline yields `x`, and scanning
      resumes after the newline. */
  lemma CheckboxLine(x: string, more: string)
    requires x != "" && '\n' !in x
    ensures Checkboxes(Box + x + "\n" + more) == [x] + Checkboxes(more)
  {
    var s := Box + x + "\n" + more;
    var rest := s[|Box|..];
    assert rest == x + "\n" + more;
    assert s[|Box|] == x[0];
    assert LineEnd(rest) == |x| by {
      LineEndAt(x, more);
    }
    assert rest[..|x|] == x;
    assert rest[|x| + 1..] == more;
  }

  lemma {:induction false} LineEndAt(x: string, more: string)
    requires '\n' !in x
    ensures LineEnd(x + "\n" + more) == |x|
    decreases |x|
  {
    if |x| > 0 {
      assert (x + "\n" + more)[1..] == x[1..] + "\n" + more;
      LineEndAt(x[1..], more);
    }
  }

  /** The checklist a plan writes: one "- [ ] x" line per item. */
  function Checklist(xs: seq<string>): string {
    Join(seq(|xs|, i requires 0 <= i < |xs| => Box + xs[i]), "\n")
  }

  /** Extraction reads a checklist back item by item. */
  lemma {:induction false} ChecklistRoundTrip(xs: seq<string>)
    requires forall i :: 0 <= i < |xs| ==> xs[i] != "" && '\n' !in xs[i]
    ensures Checkboxes(Checklist(xs)) == xs
    decreases |xs|
  {
    if |xs| == 1 {
      var s := Box + xs[0];
      assert Checklist(xs) == s;
      assert s[|Box|..] == xs[0];
      assert s[|Box|] == xs[0][0];
      assert LineEnd(xs[0]) == |xs[0]|;
      assert s[|Box|..][..|xs[0]|] == xs[0];
    } else if |xs| > 1 {
      var lines := seq(|xs|, i requires 0 <= i < |xs| => Box + xs[i]);
      assert lines[1..] == seq(|xs| - 1, i requires 0 <= i < |xs| - 1 => Box + xs[1..][i]);
      assert Checklist(xs) == Box + xs[0] + "\n" + Checklist(xs[1..]);
      CheckboxLine(xs[0], Checklist(xs[1..]));
      ChecklistRoundTrip(xs[1..]);
      assert xs == [xs[0]] + xs[1..];
    }
  }

  // ---------------------------------------------------------------------
  // Task creation: _extract_and_create_tasks
  // ---------------------------------------------------------------------

  predicate Distinct(xs: seq<string>) {
    forall i, j :: 0 <= i < j < |xs| ==> xs[i] != xs[j]
  }

  /** The task a new subject becomes. */
  function NewPlanTask(store: Board, subject: string): (r: (Board, TaskItem))
    ensures r.0.counter == store.counter + 1
    ensures r.1.subject == subject && r.1.status == Pending && r.1.description == "Plan task: " + subject
    ensures r.1.activeForm == "Working on: " + Take(subject, 40) + "..."
    ensures !HasKey(store.tasks, Id(r.1)) && Get(r.0.tasks, Id(r.1)) == Some(r.1)
    ensures forall k :: HasKey(store.tasks, k) ==> Get(r.0.tasks, k) == Get(store.tasks, k)
  {
    var (st, t) := Create(store, subject, "Plan task: " + subject, "Working on: " + Take(subject, 40) + "...");
    FreshIdAbsent(store, st.counter);
    assert forall k :: HasKey(store.tasks, k) ==> k != Id(t);
    (st, t)
  }

  /** Each capture with surrounding whitespace removed. */
  function Stripped(items: seq<string>): (r: seq<string>)
    ensures |r| == |items| && forall i :: 0 <= i < |items| ==> r[i] == Strip(items[i])
  {
    seq(|items|, i requires 0 <= i < |items| => Strip(items[i]))
  }

  /** The subjects that get a task, in order: empty subjects and subjects
      already known are skipped. */
  function NewSubjects(known: seq<string>, subjects: seq<string>): (r: seq<string>)
    decreases |subjects|
  {
    if |subjects| == 0 then []
    else if subjects[0] != "" && subjects[0] !in known then
      [subjects[0]] + NewSubjects(known + [subjects[0]], subjects[1..])
    else NewSubjects(known, subjects[1..])
  }

  /** What the agent knows after the first subject. */
  function KnownAfter(known: seq<string>, subject: string): seq<string> {
    if subject != "" && subject !in known then known + [subject] else known
  }

  lemma {:induction false} NewSubjectsStep(known: seq<string>, subjects: seq<string>)
    requires |subjects| > 0
    ensures known + NewSubjects(known, subjects)
            == KnownAfter(known, subjects[0]) + NewSubjects(KnownAfter(known, subjects[0]), subjects[1..])
  {
    var x := subjects[0];
    if x != "" && x !in known {
      var k1 := known + [x];
      assert NewSubjects(known, subjects) == [x] + NewSubjects(k1, subjects[1..]);
      assert known + ([x] + NewSubjects(k1, subjects[1..])) == k1 + NewSubjects(k1, subjects[1..]);
    }
  }

  /** Only non-empty subjects the agent did not have are added. */
  lemma {:induction false} NewSubjectsFresh(known: seq<string>, subjects: seq<string>)
    ensures forall x :: x in NewSubjects(known, subjects) ==> x != "" && x !in known
    decreases |subjects|
  {
    if |subjects| > 0 {
      NewSubjectsFresh(KnownAfter(known, subjects[0]), subjects[1..]);
    }
  }

  /** Distinct subjects stay distinct. */
  lemma {:induction false} NewSubjectsDistinct(known: seq<string>, subjects: seq<string>)
    ensures Distinct(known) ==> Distinct(known + NewSubjects(known, subjects))
    decreases |subjects|
  {
    if |subjects| > 0 && Distinct(known) {
      var k1 := KnownAfter(known, subjects[0]);
      assert Distinct(k1);
      NewSubjectsDistinct(k1, subjects[1..]);
      NewSubjectsStep(known, subjects);
    }
  }

  /** Every non-empty subject is known afterwards. */
  lemma {:induction false} NewSubjectsCover(known: seq<string>, subjects: seq<string>, i: nat)
    requires i < |subjects| && subjects[i] != ""
    ensures subjects[i] in known + NewSubjects(known, subjects)
    decreases |subjects|
  {
    var k1 := KnownAfter(known, subjects[0]);
    NewSubjectsStep(known, subjects);
    if i > 0 {
      assert subjects[i] == subjects[1..][i - 1];
      NewSubjectsCover(k1, subjects[1..], i - 1);
    } else {
      assert subjects[0] in k1;
      assert k1 <= k1 + NewSubjects(k1, subjects[1..]);
    }
  }

  /** One pending plan task per subject, created in order. */
  function CreateAll(store: Board, subjects: seq<string>): (r: Board)
    decreases |subjects|
    ensures r.counter == store.counter + |subjects|
    ensures forall k :: HasKey(store.tasks, k) ==> Get(r.tasks, k) == Get(store.tasks, k)
  {
    if |subjects| == 0 then store
    else CreateAll(NewPlanTask(store, subjects[0]).0, subjects[1..])
  }

  /** Each created subject is on the board afterwards as a pending plan task. */
  lemma {:induction false} CreatedSubjectHasTask(store: Board, subjects: seq<string>, x: string)
    requires x in subjects
    ensures exists id :: Get(CreateAll(store, subjects).tasks, id).Some?
              && Get(CreateAll(store, subjects).tasks, id).value.subject == x
              && Get(CreateAll(store, subjects).tasks, id).value.status == Pending
              && Get(CreateAll(store, subjects).tasks, id).value.description == "Plan task: " + x
    decreases |subjects|
  {
    var (st1, t) := NewPlanTask(store, subjects[0]);
    assert CreateAll(store, subjects) == CreateAll(st1, subjects[1..]);
    if x == subjects[0] {
      GetSomeHasKey(st1.tasks, Id(t));
      assert Get(CreateAll(st1, subjects[1..]).tasks, Id(t)) == Some(t);
    } else {
      CreatedSubjectHasTask(st1, subjects[1..], x);
    }
  }

  /** The captures' new subjects become tasks; the agent's list of subjects
      grows by them. */
  function AddSubjects(store: Board, known: seq<string>, items: seq<string>): (r: (Board, seq<string>))
    ensures r.1 == known + NewSubjects(known, Stripped(items))
    ensures r.0.counter == store.counter + (|r.1| - |known|)
    ensures forall k :: HasKey(store.tasks, k) ==> Get(r.0.tasks, k) == Get(store.tasks, k)
  {
    var ns := NewSubjects(known, Stripped(items));
    (CreateAll(store, ns), known + ns)
  }

  /** `_extract_and_create_tasks(content, task_store)`. */
  function Extract(store: Board, known: seq<string>, content: string): (r: (Board, seq<string>)) {
    AddSubjects(store, known, Checkboxes(content))
  }

  /** A checkbox in the text yields a task for its stripped text, unless
      the capture strips to nothing; one this agent already made is not
      made again. */
  lemma CheckboxBecomesTask(store: Board, known: seq<string>, content: string, i: nat)
    requires i < |Checkboxes(content)| && Strip(Checkboxes(content)[i]) != ""
    ensures Strip(Checkboxes(content)[i]) in Extract(store, known, content).1
    ensures Strip(Checkboxes(content)[i]) !in known ==>
              exists id :: Get(Extract(store, known, content).0.tasks, id).Some?
                && Get(Extract(store, known, content).0.tasks, id).value.subject == Strip(Checkboxes(content)[i])
  {
    var x := Strip(Checkboxes(content)[i]);
    NewSubjectsCover(known, Stripped(Checkboxes(content)), i);
    if x !in known {
      CreatedSubjectHasTask(store, NewSubjects(known, Stripped(Checkboxes(content))), x);
    }
  }

  // ---------------------------------------------------------------------
  // The round loop
  // ---------------------------------------------------------------------

  /** The loop's state: the collected contents, the board, and `_tasks`. */
  datatype PlanState = PlanState(out: seq<string>, store: Board, known: seq<string>)

  /** The `write_file` calls' content arguments, scanned in call order.
      Only calls that did not raise get here, and their content argument is
      missing or a string (`CallError`); it is read as text. */
  function ExtractFromWrites(st: PlanState, calls: seq<ToolCall>): (r: PlanState)
    decreases |calls|
    ensures r.out == st.out
    ensures st.known <= r.known
    ensures Distinct(st.known) ==> Distinct(r.known)
    ensures forall k :: HasKey(st.store.tasks, k) ==> Get(r.store.tasks, k) == Get(st.store.tasks, k)
  {
    if |calls| == 0 then st
    else
      var st1 := if calls[0].name == "write_file" then
                   var content := ArgText(calls[0].arguments, "content");
                   NewSubjectsDistinct(st.known, Stripped(Checkboxes(content)));
                   var (b, k) := Extract(st.store, st.known, content);
                   PlanState(st.out, b, k)
                 else st;
      ExtractFromWrites(st1, calls[1..])
  }

  /** What a reply does to the state: its content is collected and
      scanned, then every `write_file` call's content is scanned. */
  function Absorb(st: PlanState, reply: Message): (r: PlanState)
    ensures r.out == Collect(st.out, reply)
    ensures st.known <= r.known
    ensures Distinct(st.known) ==> Distinct(r.known)
    ensures forall k :: HasKey(st.store.tasks, k) ==> Get(r.store.tasks, k) == Get(st.store.tasks, k)
  {
    var st1 := if Truthy(reply.content) then
                 NewSubjectsDistinct(st.known, Stripped(Checkboxes(reply.content.value)));
                 var (b, k) := Extract(st.store, st.known, reply.content.value);
                 PlanState(st.out + [reply.content.value], b, k)
               else st;
    ExtractFromWrites(st1, Calls(reply))
  }

  function Answer(env: AgentEnv, call: ToolCall): (r: string)
    ensures call.name !in AllowedTools ==> r == NotAllowedText(call.name)
    ensures call.name in AllowedTools ==> r == Exec(env, call)
  {
    if call.name !in AllowedTools then NotAllowedText(call.name) else Exec(env, call)
  }

  function AnswerFn(env: AgentEnv): ToolCall -> string {
    c => Answer(env, c)
  }

  /** The exception a call raises before it is answered: the status line
      reads `glob`'s pattern, cuts `grep`'s pattern to 30 characters and
      looks for "/" in `read_file`'s and `write_file`'s path; a
      `write_file` call's content is then scanned for checkboxes, which
      raises for anything but a string. No other tool's arguments are read. */
  function CallError(call: ToolCall): (r: Option<string>)
    ensures call.name !in AllowedTools ==> r.None?
    ensures call.name in AllowedTools && !call.arguments.JObj? ==> r == Some(NoAttribute(call.arguments, "get"))
    ensures call.name == "glob" ==> (r.None? <==> call.arguments.JObj?)
    ensures call.name == "grep" && TextArg(call.arguments, "pattern") ==> r.None?
    ensures call.name == "read_file" && TextArg(call.arguments, "file_path") ==> r.None?
    ensures call.name == "write_file" && TextArg(call.arguments, "file_path") && TextArg(call.arguments, "content") ==> r.None?
    ensures call.name == "write_file" && r.None? ==> TextArg(call.arguments, "content")
    ensures call.name == "write_file" && TextArg(call.arguments, "file_path") && call.arguments.JObj?
            && Field(call.arguments, "content").Some? && !Field(call.arguments, "content").value.JStr? ==>
              r == Some("expected string or bytes-like object, got '" + TypeName(Field(call.arguments, "content").value) + "'")
  {
    if call.name == "glob" then ErrorOf(Arg(call.arguments, "pattern"))
    else if call.name == "grep" then ErrorOf(ArgPrefix(call.arguments, "pattern", 30))
    else if call.name == "read_file" then ErrorOf(ArgSegment(call.arguments, "file_path"))
    else if call.name == "write_file" then
      match ArgSegment(call.arguments, "file_path")
      case Failure(e) => Some(e)
      case Success(_) => FindallError(Arg(call.arguments, "content").value)
    else None
  }

  function Fails(): ToolCall -> Option<string> {
    c => CallError(c)
  }

  /** A refused call runs nothing: its answer does not depend on the
      registry or its handlers. */
  lemma RefusedCallRunsNothing(env1: AgentEnv, env2: AgentEnv, call: ToolCall)
    requires call.name !in AllowedTools
    ensures Answer(env1, call) == Answer(env2, call)
  {
  }

  function OfferedTools(reg: Registry): (r: seq<Json>)
    ensures forall s :: s in r <==> exists t :: t in ListTools(reg) && t.name in AllowedTools && s == ToOpenAISchema(t)
  {
    SchemasWhere(ListTools(reg), n => n in AllowedTools)
  }

  function ChatWith(env: AgentEnv, tools: seq<Json>): seq<Message> -> ChatOutcome {
    ms => env.chat(ms, Some(tools))
  }

  function Opening(system: string, prompt: string): seq<Message> {
    [SystemMessage(system), UserMessage(prompt)]
  }

  function Rounds(env: AgentEnv, system: string, prompt: string, store: Board): LoopEnd<PlanState> {
    Loop(ChatWith(env, OfferedTools(env.reg)), env.cancelled, Absorb, AnswerFn(env), Fails(), MaxTurns,
         Opening(system, prompt), PlanState([], store, []), 0)
  }

  lemma RoundsShape(env: AgentEnv, system: string, prompt: string, store: Board)
    ensures var l := Rounds(env, system, prompt, store);
            |l.messages| >= 2 && Answered(l.messages[2..], AnswerFn(env), Fails())
            && l.state == Absorbed(Absorb, PlanState([], store, []), Replies(l.messages[2..]))
            && CutBy(l.messages[2..], Fails()) == if l.stop.CallRaised? then Some(l.stop.error) else None
  {
    var chat := ChatWith(env, OfferedTools(env.reg));
    LoopAnswered(chat, env.cancelled, Absorb, AnswerFn(env), Fails(), MaxTurns, Opening(system, prompt), PlanState([], store, []), 0);
    LoopState(chat, env.cancelled, Absorb, AnswerFn(env), Fails(), MaxTurns, Opening(system, prompt), PlanState([], store, []), 0);
  }

  // ---------------------------------------------------------------------
  // The final output
  // ---------------------------------------------------------------------

  function PlanTaskLine(t: TaskItem): string {
    "@@PLAN_TASK@@ " + Id(t) + "|" + StatusName(t.status) + "|" + t.subject + "\n"
  }

  /** One line per listed task whose subject this agent created, in board
      order. */
  function PlanTaskLines(ts: seq<TaskItem>, known: seq<string>): string {
    if |ts| == 0 then ""
    else (if ts[0].subject in known then PlanTaskLine(ts[0]) else "") + PlanTaskLines(ts[1..], known)
  }

  lemma {:induction false} PlanTaskLinesContain(ts: seq<TaskItem>, known: seq<string>, i: nat)
    requires i < |ts| && ts[i].subject in known
    ensures exists j :: OccursAt(PlanTaskLines(ts, known), PlanTaskLine(ts[i]), j)
    decreases |ts|
  {
    var head := if ts[0].subject in known then PlanTaskLine(ts[0]) else "";
    assert PlanTaskLines(ts, known) == head + PlanTaskLines(ts[1..], known);
    if i == 0 {
      assert OccursAt(head, PlanTaskLine(ts[0]), 0);
      OccursExtend(head, PlanTaskLines(ts[1..], known), PlanTaskLine(ts[0]), 0);
    } else {
      PlanTaskLinesContain(ts[1..], known, i - 1);
      var j :| OccursAt(PlanTaskLines(ts[1..], known), PlanTaskLine(ts[i]), j);
      OccursShift(head, PlanTaskLines(ts[1..], known), PlanTaskLine(ts[i]), j);
    }
  }

  const TasksHeading: string := "\n\n## Plan Tasks\n"

  /** The output text before the "Planning complete." fallback: the
      collected text, then the task section when the agent created tasks,
      then the plan-file note when the file exists. */
  function Assemble(text: string, taskLines: Option<string>, planFile: Option<string>): string {
    var f := if taskLines.Some? then text + TasksHeading + taskLines.value else text;
    if planFile.Some? then f + "\n\n\U{1F4CB} Plan saved to: `" + planFile.value + "`" else f
  }

  function Report(out: seq<string>, store: Board, known: seq<string>, planFile: string, planFileExists: bool): string {
    Assemble(Join(out, "\n"),
             if |known| > 0 then Some(PlanTaskLines(ListAll(store), known)) else None,
             if planFileExists then Some(planFile) else None)
  }

  function FinalOutput(out: seq<string>, store: Board, known: seq<string>, planFile: string, planFileExists: bool): (r: string)
    ensures r != ""
  {
    var f := Report(out, store, known, planFile, planFileExists);
    if f != "" then f else "Planning complete."
  }

  /** Whatever occurs in the task section occurs in the assembled text. */
  lemma AssembleKeepsLines(text: string, taskLines: string, planFile: Option<string>, line: string, j: nat)
    requires OccursAt(taskLines, line, j)
    ensures OccursAt(Assemble(text, Some(taskLines), planFile), line, |text + TasksHeading| + j)
  {
    OccursShift(text + TasksHeading, taskLines, line, j);
    var f := text + TasksHeading + taskLines;
    if planFile.Some? {
      OccursExtend(f, "\n\n\U{1F4CB} Plan saved to: `" + planFile.value + "`", line, |text + TasksHeading| + j);
    }
  }

  /** Every listed task whose subject this agent created appears in the
      output as its `@@PLAN_TASK@@ id|status|subject` line. */
  lemma PlanTaskReported(out: seq<string>, store: Board, known: seq<string>, planFile: string, planFileExists: bool, t: TaskItem)
    requires t in ListAll(store) && t.subject in known
    ensures Contains(FinalOutput(out, store, known, planFile, planFileExists), PlanTaskLine(t))
  {
    var ts := ListAll(store);
    var i :| 0 <= i < |ts| && ts[i] == t;
    PlanTaskLinesContain(ts, known, i);
    var lines := PlanTaskLines(ts, known);
    var j :| OccursAt(lines, PlanTaskLine(t), j);
    var text := Join(out, "\n");
    var pf := if planFileExists then Some(planFile) else None;
    AssembleKeepsLines(text, lines, pf, PlanTaskLine(t), j);
    var f := Assemble(text, Some(lines), pf);
    assert Report(out, store, known, planFile, planFileExists) == f;
    assert f != "";
    ContainsIffOccurs(f, PlanTaskLine(t));
  }

  /** Nothing collected, no tasks and no plan file: the fixed message. */
  lemma NothingPlanned(store: Board, planFile: string)
    ensures FinalOutput([], store, [], planFile, false) == "Planning complete."
  {
  }

  // ---------------------------------------------------------------------
  // run
  // ---------------------------------------------------------------------

  /** What a run gives back: the outcome, the messages, the number of model
      calls, the board as it stands afterwards and the subjects this agent
      created (`_tasks`). */
  datatype PlanRun = PlanRun(outcome: RunOutcome, transcript: seq<Message>, modelCalls: nat,
                             store: Board, subjects: seq<string>)

  function Outcome(stop: Stop, agentId: string, st: PlanState, planFile: string, planFileExists: bool): (r: RunOutcome)
    ensures r.Finished? ==> r.result.agentId == agentId && r.result.agentType == Plan
    ensures r.Finished? && !r.result.success ==>
              stop == Cancelled && r.result.error == Some("Agent cancelled") && r.result.output == Join(st.out, "\n")
    ensures r.Finished? && r.result.success ==>
              r.result.error.None? && r.result.output == FinalOutput(st.out, st.store, st.known, planFile, planFileExists)
    ensures r.Crashed? <==> stop.ChatRaised? || stop.CallRaised?
    ensures r.Crashed? ==> r.error == stop.error
  {
    match stop
    case Cancelled => Finished(FailedResult(agentId, Plan, Join(st.out, "\n"), "Agent cancelled"))
    case ChatRaised(e) => Crashed(e)
    case CallRaised(e) => Crashed(e)
    case _ => Finished(NewResult(agentId, Plan, true, FinalOutput(st.out, st.store, st.known, planFile, planFileExists)))
  }

  /** `PlanAgent.run` against the shared task board `store`. The board is
      returned whatever the outcome: tasks created before an exception stay. */
  function Run(env: AgentEnv, agentId: string, system: string, prompt: string, store: Board,
               planFile: string, planFileExists: bool): (r: PlanRun)
    ensures r.modelCalls <= MaxTurns
    ensures Opening(system, prompt) <= r.transcript
    ensures Answered(r.transcript[2..], AnswerFn(env), Fails())
    ensures forall t :: 0 <= t < r.modelCalls ==> !env.cancelled(t)
    ensures r.outcome.Finished? ==> r.outcome.result.agentId == agentId && r.outcome.result.agentType == Plan
    ensures r.outcome.Finished? && !r.outcome.result.success ==>
              env.cancelled(r.modelCalls) && r.outcome.result.error == Some("Agent cancelled")
    ensures r.outcome.Crashed? ==> 0 < r.modelCalls
    ensures CutBy(r.transcript[2..], Fails()).Some? ==> r.outcome == Crashed(CutBy(r.transcript[2..], Fails()).value)
    ensures r.outcome.Crashed? && CutBy(r.transcript[2..], Fails()).None? ==>
              env.chat(r.transcript, Some(OfferedTools(env.reg))) == ChatFailed(r.outcome.error)
  {
    var l := Rounds(env, system, prompt, store);
    RoundsShape(env, system, prompt, store);
    PlanRun(Outcome(l.stop, agentId, l.state, planFile, planFileExists), l.messages, l.calls, l.state.store, l.state.known)
  }

  /** What a run reports and leaves on the board: the collected contents of
      the replies, the board's earlier tasks untouched, and distinct
      subjects of its own. */
  lemma RunReport(env: AgentEnv, agentId: string, system: string, prompt: string, store: Board,
                  planFile: string, planFileExists: bool, r: PlanRun)
    requires r == Run(env, agentId, system, prompt, store, planFile, planFileExists)
    ensures |r.transcript| >= 2
    ensures r.outcome.Finished? && !r.outcome.result.success ==>
              r.outcome.result.output == Join(Contents(Replies(r.transcript[2..])), "\n")
    ensures r.outcome.Finished? && r.outcome.result.success ==>
              r.outcome.result.error.None? &&
              r.outcome.result.output == FinalOutput(Contents(Replies(r.transcript[2..])), r.store, r.subjects, planFile, planFileExists)
    ensures forall k :: HasKey(store.tasks, k) ==> Get(r.store.tasks, k) == Get(store.tasks, k)
    ensures Distinct(r.subjects)
  {
    var l := Rounds(env, system, prompt, store);
    RoundsShape(env, system, prompt, store);
    assert r.transcript == l.messages && r.store == l.state.store && r.subjects == l.state.known;
    assert r.outcome == Outcome(l.stop, agentId, l.state, planFile, planFileExists);
    var st0 := PlanState([], store, []);
    var replies := Replies(l.messages[2..]);
    assert l.state == Absorbed(Absorb, st0, replies);
    AbsorbedKeepsTasks(st0, replies);
    AbsorbedOut(st0, replies);
    CollectedContents([], replies);
    assert l.state.out == Contents(replies);
  }

  /** Absorbing collects contents exactly as `Collect` does. */
  lemma {:induction false} AbsorbedOut(st: PlanState, replies: seq<Message>)
    ensures Absorbed(Absorb, st, replies).out == Absorbed(Collect, st.out, replies)
    decreases |replies|
  {
    if |replies| > 0 {
      AbsorbedOut(Absorb(st, replies[0]), replies[1..]);
    }
  }

  /** Absorbing any replies keeps the tasks that were on the board. */
  lemma {:induction false} AbsorbedKeepsTasks(st: PlanState, replies: seq<Message>)
    ensures forall k :: HasKey(st.store.tasks, k) ==>
              Get(Absorbed(Absorb, st, replies).store.tasks, k) == Get(st.store.tasks, k)
    ensures st.known <= Absorbed(Absorb, st, replies).known
    ensures Distinct(st.known) ==> Distinct(Absorbed(Absorb, st, replies).known)
    decreases |replies|
  {
    if |replies| > 0 {
      var st1 := Absorb(st, replies[0]);
      AbsorbedKeepsTasks(st1, replies[1..]);
      forall k | HasKey(st.store.tasks, k)
        ensures HasKey(st1.store.tasks, k)
      {
        GetSomeHasKey(st1.store.tasks, k);
      }
      assert st.known <= st1.known;
    }
  }

  lemma GetSomeHasKey<V>(m: OMap<V>, k: string)
    requires Get(m, k).Some?
    ensures HasKey(m, k)
  {
  }

  // ---------------------------------------------------------------------
  // _generate_plan_filename
  // ---------------------------------------------------------------------

  /** `\w` on ASCII: letters, digits and the underscore. */
  predicate IsWordChar(c: char) {
    ('a' <= c <= 'z') || ('A' <= c <= 'Z') || ('0' <= c <= '9') || c == '_'
  }

  /** `re.sub(r'[^\w\s]', '', s)`. */
  function KeepWordsAndSpaces(s: string): (r: string)
    ensures forall c :: c in r ==> IsWordChar(c) || IsSpace(c)
  {
    if |s| == 0 then ""
    else (if IsWordChar(s[0]) || IsSpace(s[0]) then [s[0]] else "") + KeepWordsAndSpaces(s[1..])
  }

  /** Length of the leading run of non-space characters. */
  function RunLength(s: string): (n: nat)
    ensures n <= |s|
    ensures forall k :: 0 <= k < n ==> !IsSpace(s[k])
    ensures n < |s| ==> IsSpace(s[n])
  {
    if |s| == 0 || IsSpace(s[0]) then 0 else 1 + RunLength(s[1..])
  }

  /** Python's `s.split()`: the maximal runs of non-space characters. */
  function Words(s: string): (r: seq<string>)
    decreases |s|
    ensures forall w :: w in r ==> w != "" && forall c :: c in w ==> c in s && !IsSpace(c)
  {
    if |s| == 0 then []
    else if IsSpace(s[0]) then Words(s[1..])
    else
      var n := RunLength(s);
      [s[..n]] + Words(s[n..])
  }

  const StopWords: seq<string> := ["the", "and", "for", "with", "this", "that"]

  function Keywords(words: seq<string>): (r: seq<string>)
    ensures forall w :: w in r <==> w in words && |w| > 2 && w !in StopWords
  {
    if |words| == 0 then []
    else
      (if |words[0]| > 2 && words[0] !in StopWords then [words[0]] else []) + Keywords(words[1..])
  }

  /** The keywords of a prompt, before the first three are taken. */
  function PromptKeywords(prompt: string): seq<string> {
    Keywords(Words(KeepWordsAndSpaces(Lower(prompt))))
  }

  /** `'-'.join(keywords) if keywords else 'plan'`. */
  function SlugOf(kw: seq<string>): string {
    if |kw| > 0 then Join(kw, "-") else "plan"
  }

  /** The slug: the first three keywords joined by "-", or "plan". */
  function Slug(prompt: string): string {
    SlugOf(Take(PromptKeywords(prompt), 3))
  }

  /** A prompt's keywords are lower-case word characters only, longer than
      two, and not stopwords. */
  lemma PromptKeywordsShape(prompt: string)
    ensures forall w :: w in PromptKeywords(prompt) ==>
              |w| > 2 && w !in StopWords && forall c :: c in w ==> IsWordChar(c) && !('A' <= c <= 'Z')
  {
    var lowered := Lower(prompt);
    var kept := KeepWordsAndSpaces(lowered);
    KeptFromSource(lowered);
    assert forall c :: c in lowered ==> !('A' <= c <= 'Z');
    assert forall w :: w in PromptKeywords(prompt) ==> w in Words(kept);
  }

  /** Keywords without "-" are read back from their slug by splitting. */
  lemma SlugOfSplits(kw: seq<string>)
    requires |kw| > 0 && forall w :: w in kw ==> '-' !in w
    ensures Split(SlugOf(kw), '-') == kw
  {
    forall k | 0 <= k < |kw|
      ensures '-' !in kw[k]
    {
      assert kw[k] in kw;
    }
    SplitJoin(kw, '-');
  }

  /** The slug is "plan" when the prompt has no keyword; otherwise it
      splits on "-" back into the first one to three keywords. */
  lemma SlugKeywords(prompt: string)
    ensures var kw := Take(PromptKeywords(prompt), 3);
            (|kw| == 0 && Slug(prompt) == "plan") ||
            (1 <= |kw| <= 3 && Split(Slug(prompt), '-') == kw && kw <= PromptKeywords(prompt))
  {
    var kw := Take(PromptKeywords(prompt), 3);
    if |kw| > 0 {
      PromptKeywordsShape(prompt);
      assert forall w :: w in kw ==> w in PromptKeywords(prompt);
      SlugOfSplits(kw);
    }
  }

  lemma KeptFromSource(s: string)
    ensures forall c :: c in KeepWordsAndSpaces(s) ==> c in s
  {
  }
}
