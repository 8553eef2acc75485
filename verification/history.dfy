/** `/save history` and `/load history` in `main.py`: the conversation as a
    Markdown file with one "## ROLE" section per non-system message, and the
    line-by-line parser that reads user and assistant sections back. */
module History {
  import opened Wrappers
  import opened Text
  import opened Wire
  import opened Tasks
  import opened Conversation
  import FileOps

  // ---- saving ----

  /** The section title of a role, `msg.role.upper()`. */
  function Title(r: Role): string {
    match r
    case System => "SYSTEM"
    case User => "USER"
    case Assistant => "ASSISTANT"
    case ToolResult => "TOOL"
  }

  lemma TitleIsUpper(r: Role)
    ensures Title(r) == Upper(RoleName(r))
  {
    match r
    case System => UpperIs("system", "SYSTEM");
    case User => UpperIs("user", "USER");
    case Assistant => UpperIs("assistant", "ASSISTANT");
    case ToolResult => UpperIs("tool", "TOOL");
  }

  lemma UpperIs(s: string, u: string)
    requires |s| == |u| && forall k :: 0 <= k < |s| ==> UpperChar(s[k]) == u[k]
    ensures Upper(s) == u
  {
  }

  /** `msg.content or "(no content)"`: a missing or empty content is shown
      as a placeholder. */
  function Shown(m: Message): (c: string)
    ensures c != ""
    ensures m.content.Some? && m.content.value != "" ==> c == m.content.value
  {
    if m.content.Some? && m.content.value != "" then m.content.value else "(no content)"
  }

  function Header(date: string, model: string): seq<string> {
    ["# Conversation History", "", "**Date:** " + date, "**Model:** " + model, "", "---", ""]
  }

  function Section(m: Message): seq<string> {
    ["## " + Title(m.role), "", Shown(m), ""]
  }

  /** The sections of every message except system messages, in order. */
  /** A message's lines in the file; system messages have none. */
  function SectionOf(m: Message): seq<string> {
    if m.role == System then [] else Section(m)
  }

  function Sections(ms: seq<Message>): seq<string> {
    if |ms| == 0 then [] else SectionOf(ms[0]) + Sections(ms[1..])
  }

  /** The text written to `conversation_<timestamp>.md`. */
  function SaveText(date: string, model: string, ms: seq<Message>): string {
    Join(Header(date, model) + Sections(ms), "\n")
  }

  // ---- loading ----

  /** The parser's state: messages restored so far, the role of the open
      section and its collected lines. */
  datatype LoadState = LoadState(msgs: seq<Message>, role: Option<Role>, buf: seq<string>)

  const Start := LoadState([], None, [])

  /** A message restored by `add_user_message` / `add_assistant_message`. */
  function Restored(r: Role, content: string): Message {
    Message(r, Some(content), None, None, None)
  }

  /** Closing the open section: it becomes a message when a role is set and
      at least one line was collected; its text is the lines joined and
      stripped. */
  function Flush(st: LoadState): (r: seq<Message>)
    ensures st.role.None? || |st.buf| == 0 ==> r == st.msgs
    ensures st.role.Some? && |st.buf| > 0 ==>
              r == st.msgs + [Restored(st.role.value, Strip(Join(st.buf, "\n")))]
  {
    if st.role.Some? && |st.buf| > 0 then st.msgs + [Restored(st.role.value, Strip(Join(st.buf, "\n")))]
    else st.msgs
  }

  /** Lines dropped as headers or metadata. */
  predicate Skipped(line: string) {
    StartsWith(line, "## ") || StartsWith(line, "# ") || StartsWith(line, "---")
    || StartsWith(line, "**Date:") || StartsWith(line, "**Model:")
  }

  /** One line of the parser loop. As the program has it (`fixed` false),
      a section other than USER or ASSISTANT is skipped like a header, so
      its lines go on collecting into the section before it; with `fixed`,
      such a section closes the open one and its lines are dropped. */
  function StepWith(fixed: bool, st: LoadState, line: string): (r: LoadState)
    ensures fixed && StartsWith(line, "## ") && !StartsWith(line, "## USER") && !StartsWith(line, "## ASSISTANT") ==>
              r == LoadState(Flush(st), None, [])
  {
    if StartsWith(line, "## USER") then LoadState(Flush(st), Some(User), [])
    else if StartsWith(line, "## ASSISTANT") then LoadState(Flush(st), Some(Assistant), [])
    else if fixed && StartsWith(line, "## ") then LoadState(Flush(st), None, [])
    else if Skipped(line) then st
    else if st.role.Some? then st.(buf := st.buf + [line])
    else st
  }

  function Run(fixed: bool, st: LoadState, lines: seq<string>): LoadState
    decreases |lines|
  {
    if |lines| == 0 then st else Run(fixed, StepWith(fixed, st, lines[0]), lines[1..])
  }

  /** The parse of a saved file, as the program has it (`fixed` false) or
      with other sections dropped (`fixed` true). Either way only user and
      assistant messages come back. */
  function Load(fixed: bool, text: string): (r: seq<Message>)
    ensures forall i :: 0 <= i < |r| ==> r[i].role in {User, Assistant} && r[i].content.Some? && r[i].toolCalls.None?
  {
    var st := Run(fixed, Start, Split(text, '\n'));
    RunRoles(fixed, Start, Split(text, '\n'));
    Flush(st)
  }

  /** `/load history <file>`: the file is read with `read_text`, which
      turns "\r\n" and a lone "\r" into "\n"; the conversation is cleared,
      then each parsed message is added in order; the reply reports how
      many were loaded. */
  function Restore(env: PromptEnv, st: TaskStore, raw: string, fixed: bool): (r: (Conversation, nat))
    ensures |r.0.messages| == 1 + r.1 && r.0.messages[0].role == System
    ensures r.0.messages[0] == New(env, st).messages[0]
    ensures r.0.messages[1..] == Load(fixed, FileOps.ReadText(raw))
    ensures '\r' !in raw ==> r.0.messages[1..] == Load(fixed, raw)
  {
    var loaded := Load(fixed, FileOps.ReadText(raw));
    (Conversation(New(env, st).messages + loaded, New(env, st).projectFilesLoaded), |loaded|)
  }

  /** Only user and assistant sections are ever opened. */
  predicate RolesOk(st: LoadState) {
    (st.role.Some? ==> st.role.value in {User, Assistant})
    && forall i :: 0 <= i < |st.msgs| ==>
         st.msgs[i].role in {User, Assistant} && st.msgs[i].content.Some? && st.msgs[i].toolCalls.None?
  }

  lemma {:induction false} RunRoles(fixed: bool, st: LoadState, lines: seq<string>)
    requires RolesOk(st)
    ensures RolesOk(Run(fixed, st, lines)) && RolesOk(LoadState(Flush(Run(fixed, st, lines)), None, []))
    decreases |lines|
  {
    if |lines| > 0 {
      StepRoles(fixed, st, lines[0]);
      RunRoles(fixed, StepWith(fixed, st, lines[0]), lines[1..]);
    } else {
      FlushRoles(st);
    }
  }

  lemma StepRoles(fixed: bool, st: LoadState, line: string)
    requires RolesOk(st)
    ensures RolesOk(StepWith(fixed, st, line))
  {
    FlushRoles(st);
  }

  lemma FlushRoles(st: LoadState)
    requires RolesOk(st)
    ensures RolesOk(LoadState(Flush(st), None, []))
  {
  }

  // ---- the round trip ----

  /** A content line the parser keeps. */
  predicate Plain(line: string) {
    !Skipped(line)
  }

  /** A text that `/load history` can restore exactly: already stripped,
      free of carriage returns (reading the file would turn them into line
      breaks) and made of plain lines. */
  predicate Restorable(c: string) {
    Strip(c) == c && '\r' !in c && forall i :: 0 <= i < |Split(c, '\n')| ==> Plain(Split(c, '\n')[i])
  }

  /** What a save followed by a load should give: the user and assistant
      messages, in order, with their shown content. */
  function Kept(ms: seq<Message>): (r: seq<Message>)
    ensures |r| <= |ms|
  {
    if |ms| == 0 then [] else KeptOne(ms[0]) + Kept(ms[1..])
  }

  function KeptOne(m: Message): (r: seq<Message>)
    ensures |r| <= 1
  {
    if m.role == User || m.role == Assistant then [Restored(m.role, Shown(m))] else []
  }

  /** The lines `split("\n")` finds in a joined list of lines. */
  function Expand(xs: seq<string>): seq<string> {
    SplitEach(xs, '\n')
  }

  lemma ExpandAppend(a: seq<string>, b: seq<string>)
    ensures Expand(a + b) == Expand(a) + Expand(b)
  {
    SplitEachAppend(a, b, '\n');
  }

  lemma ExpandOne(x: string)
    ensures Expand([x]) == Split(x, '\n')
  {
    assert [x][1..] == [];
    assert Expand([x]) == Split(x, '\n') + SplitEach([], '\n');
  }

  lemma ExpandLine(x: string)
    requires '\n' !in x
    ensures Expand([x]) == [x]
  {
    ExpandOne(x);
    FindCharAbsent(x, '\n');
  }

  lemma {:induction false} ExpandNoNewlines(xs: seq<string>)
    requires forall i :: 0 <= i < |xs| ==> '\n' !in xs[i]
    ensures Expand(xs) == xs
    decreases |xs|
  {
    if |xs| > 0 {
      assert xs == [xs[0]] + xs[1..];
      ExpandAppend([xs[0]], xs[1..]);
      ExpandLine(xs[0]);
      ExpandNoNewlines(xs[1..]);
    }
  }

  lemma HeaderLines(date: string, model: string)
    requires '\n' !in date && '\n' !in model
    ensures |Header(date, model)| == 7
    ensures forall i :: 0 <= i < 7 ==> '\n' !in Header(date, model)[i]
  {
  }

  /** The lines of a saved file: the header, then per section its title,
      a blank line, the content's own lines and a blank line. */
  lemma SavedLines(date: string, model: string, ms: seq<Message>)
    requires '\n' !in date && '\n' !in model
    ensures Split(SaveText(date, model, ms), '\n') == Header(date, model) + Expand(Sections(ms))
  {
    var h := Header(date, model);
    var xs := h + Sections(ms);
    HeaderLines(date, model);
    assert |xs| > 0;
    SplitJoinAll(xs, '\n');
    ExpandAppend(h, Sections(ms));
    ExpandNoNewlines(h);
  }

  lemma {:induction false} RunAppend(fixed: bool, st: LoadState, a: seq<string>, b: seq<string>)
    ensures Run(fixed, st, a + b) == Run(fixed, Run(fixed, st, a), b)
    decreases |a|
  {
    if |a| > 0 {
      assert (a + b)[1..] == a[1..] + b;
      RunAppend(fixed, StepWith(fixed, st, a[0]), a[1..], b);
    } else {
      assert a + b == b;
    }
  }

  lemma {:induction false} RunUnchanged(fixed: bool, st: LoadState, ls: seq<string>)
    requires forall i :: 0 <= i < |ls| ==> StepWith(fixed, st, ls[i]) == st
    ensures Run(fixed, st, ls) == st
    decreases |ls|
  {
    if |ls| > 0 {
      RunUnchanged(fixed, st, ls[1..]);
    }
  }

  /** Header lines change nothing before the first section. */
  lemma HeaderIgnored(fixed: bool, date: string, model: string)
    ensures Run(fixed, Start, Header(date, model)) == Start
  {
    var h := Header(date, model);
    forall i | 0 <= i < |h|
      ensures StepWith(fixed, Start, h[i]) == Start
    {
      assert h[i] == "" || h[i][1] != '#';
      ClosedStepNoTitle(fixed, Start, h[i]);
    }
    RunUnchanged(fixed, Start, h);
  }

  /** Outside a section, a line that is not a section title changes nothing. */
  lemma ClosedStepNoTitle(fixed: bool, st: LoadState, line: string)
    requires st.role.None?
    requires |line| < 2 || line[1] != '#'
    ensures StepWith(fixed, st, line) == st
  {
    assert !StartsWith(line, "## ") by {
      if |line| >= 3 { assert line[..3][1] == line[1]; }
    }
    assert !StartsWith(line, "## USER") by {
      if |line| >= 7 { assert line[..7][1] == line[1]; }
    }
    assert !StartsWith(line, "## ASSISTANT") by {
      if |line| >= 12 { assert line[..12][1] == line[1]; }
    }
  }

  /** Plain lines are collected into an open section. */
  lemma {:induction false} RunPlain(fixed: bool, st: LoadState, ls: seq<string>)
    requires st.role.Some?
    requires forall i :: 0 <= i < |ls| ==> Plain(ls[i])
    ensures Run(fixed, st, ls) == st.(buf := st.buf + ls)
    decreases |ls|
  {
    if |ls| > 0 {
      RunPlain(fixed, st.(buf := st.buf + [ls[0]]), ls[1..]);
      RunPlainStep(fixed, st, ls);
    } else {
      assert st.buf + ls == st.buf;
    }
  }

  lemma RunPlainStep(fixed: bool, st: LoadState, ls: seq<string>)
    requires st.role.Some? && |ls| > 0 && Plain(ls[0])
    requires Run(fixed, st.(buf := st.buf + [ls[0]]), ls[1..]) == st.(buf := st.buf + [ls[0]] + ls[1..])
    ensures Run(fixed, st, ls) == st.(buf := st.buf + ls)
  {
    PlainNotHeader(ls[0]);
    assert StepWith(fixed, st, ls[0]) == st.(buf := st.buf + [ls[0]]);
    ConcatAssoc(st.buf, [ls[0]], ls[1..]);
    assert [ls[0]] + ls[1..] == ls;
  }

  /** Plain lines are dropped outside a section. */
  lemma RunPlainClosed(fixed: bool, st: LoadState, ls: seq<string>)
    requires st.role.None?
    requires forall i :: 0 <= i < |ls| ==> Plain(ls[i])
    ensures Run(fixed, st, ls) == st
  {
    forall i | 0 <= i < |ls|
      ensures StepWith(fixed, st, ls[i]) == st
    {
      PlainNotHeader(ls[i]);
    }
    RunUnchanged(fixed, st, ls);
  }

  lemma PlainNotHeader(line: string)
    requires Plain(line)
    ensures !StartsWith(line, "## USER") && !StartsWith(line, "## ASSISTANT")
  {
  }

  lemma {:induction false} JoinAppendEmpty(xs: seq<string>, sep: string)
    requires |xs| > 0
    ensures Join(xs + [""], sep) == Join(xs, sep) + sep
    decreases |xs|
  {
    if |xs| > 1 {
      assert (xs + [""])[1..] == xs[1..] + [""];
      JoinAppendEmpty(xs[1..], sep);
    }
  }

  /** The lines collected for a section with content `c`. */
  function Body(c: string): seq<string> {
    [""] + Split(c, '\n') + [""]
  }

  /** A saved section's collected lines join to its content between two
      newlines. */
  lemma BodyJoin(c: string)
    ensures Join(Body(c), "\n") == "\n" + c + "\n"
  {
    var ls := Split(c, '\n');
    JoinAppendEmpty([""] + ls, "\n");
    assert ([""] + ls)[1..] == ls;
    JoinSplit(c, '\n');
    assert Join([""] + ls, "\n") == "" + "\n" + c;
  }

  /** A saved section's collected lines strip back to the content. */
  lemma SectionText(c: string)
    requires Strip(c) == c
    ensures Strip(Join(Body(c), "\n")) == c
  {
    BodyJoin(c);
    StripPadded("\n", c, "\n");
  }

  function TitleLine(m: Message): string {
    "## " + Title(m.role)
  }

  /** The lines `split` finds in a saved section. */
  lemma SectionLines(m: Message)
    ensures Expand(Section(m)) == [TitleLine(m)] + ([""] + Split(Shown(m), '\n') + [""])
  {
    var c := Shown(m);
    var t := TitleLine(m);
    assert '\n' !in t;
    assert Section(m) == [t] + [""] + [c] + [""];
    ExpandAppend([t] + [""] + [c], [""]);
    ExpandAppend([t] + [""], [c]);
    ExpandAppend([t], [""]);
    ExpandLine(t);
    ExpandLine("");
    ExpandOne(c);
  }

  /** A section title closes what was open and opens a user or assistant
      section; any other title closes (fixed) or is skipped (as written). */
  lemma OpenSection(fixed: bool, st: LoadState, m: Message)
    requires m.role != System
    ensures m.role != ToolResult ==> StepWith(fixed, st, TitleLine(m)) == LoadState(Flush(st), Some(m.role), [])
    ensures m.role == ToolResult && fixed ==> StepWith(fixed, st, TitleLine(m)) == LoadState(Flush(st), None, [])
    ensures m.role == ToolResult && !fixed ==> StepWith(fixed, st, TitleLine(m)) == st
  {
    match m.role
    case User =>
      assert TitleLine(m) == "## USER";
      OpenUser(fixed, st);
    case Assistant =>
      assert TitleLine(m) == "## ASSISTANT";
      OpenAssistant(fixed, st);
    case ToolResult =>
      assert TitleLine(m) == "## TOOL";
      OpenTool(fixed, st);
  }

  lemma OpenUser(fixed: bool, st: LoadState)
    ensures StepWith(fixed, st, "## USER") == LoadState(Flush(st), Some(User), [])
  {
    assert StartsWith("## USER", "## USER");
  }

  lemma OpenAssistant(fixed: bool, st: LoadState)
    ensures StepWith(fixed, st, "## ASSISTANT") == LoadState(Flush(st), Some(Assistant), [])
  {
    var t := "## ASSISTANT";
    assert !StartsWith(t, "## USER") by { assert t[..7][3] == 'A'; }
    assert StartsWith(t, "## ASSISTANT");
  }

  lemma OpenTool(fixed: bool, st: LoadState)
    ensures fixed ==> StepWith(fixed, st, "## TOOL") == LoadState(Flush(st), None, [])
    ensures !fixed ==> StepWith(fixed, st, "## TOOL") == st
  {
    var t := "## TOOL";
    assert !StartsWith(t, "## USER") by { assert t[..7][3] == 'T'; }
    assert !StartsWith(t, "## ASSISTANT");
    assert StartsWith(t, "## ");
  }

  lemma BodyPlain(c: string)
    requires Restorable(c)
    ensures forall i :: 0 <= i < |Body(c)| ==> Plain(Body(c)[i])
  {
    var ls := Split(c, '\n');
    forall i | 0 <= i < |Body(c)|
      ensures Plain(Body(c)[i])
    {
      if 1 <= i < |Body(c)| - 1 {
        assert Body(c)[i] == ls[i - 1];
      }
    }
  }

  /** The lines of a section, after its title. */
  lemma SectionRun(fixed: bool, st: LoadState, m: Message)
    requires m.role != System
    ensures Run(fixed, st, Expand(Section(m))) == Run(fixed, StepWith(fixed, st, TitleLine(m)), Body(Shown(m)))
  {
    SectionLines(m);
    assert Expand(Section(m)) == [TitleLine(m)] + Body(Shown(m));
    RunAppend(fixed, st, [TitleLine(m)], Body(Shown(m)));
  }

  /** A TOOL section closes what was open and adds nothing. */
  lemma ToolSectionEffect(st: LoadState, m: Message)
    requires m.role == ToolResult && Restorable(Shown(m))
    ensures Flush(Run(true, st, Expand(Section(m)))) == Flush(st)
  {
    SectionRun(true, st, m);
    OpenSection(true, st, m);
    var st1 := LoadState(Flush(st), None, []);
    BodyPlain(Shown(m));
    RunPlainClosed(true, st1, Body(Shown(m)));
  }

  /** A USER or ASSISTANT section closes what was open and adds its own
      message. */
  lemma OpenSectionEffect(fixed: bool, st: LoadState, m: Message)
    requires (m.role == User || m.role == Assistant) && Restorable(Shown(m))
    ensures Flush(Run(fixed, st, Expand(Section(m)))) == Flush(st) + [Restored(m.role, Shown(m))]
  {
    var c := Shown(m);
    SectionRun(fixed, st, m);
    OpenSection(fixed, st, m);
    var st1 := LoadState(Flush(st), Some(m.role), []);
    BodyPlain(c);
    RunPlain(fixed, st1, Body(c));
    assert [] + Body(c) == Body(c);
    SectionText(c);
  }

  lemma MessageEffect(fixed: bool, st: LoadState, m: Message)
    requires m.role == System || Restorable(Shown(m))
    requires fixed || m.role != ToolResult
    ensures Flush(Run(fixed, st, Expand(SectionOf(m)))) == Flush(st) + KeptOne(m)
  {
    if m.role == System {
      ExpandNoNewlines([]);
      assert Flush(st) + [] == Flush(st);
    } else if m.role == ToolResult {
      ToolSectionEffect(st, m);
      assert Flush(st) + [] == Flush(st);
    } else {
      OpenSectionEffect(fixed, st, m);
    }
  }

  lemma {:induction false} SectionsEffect(fixed: bool, st: LoadState, ms: seq<Message>)
    requires forall i :: 0 <= i < |ms| ==> ms[i].role == System || Restorable(Shown(ms[i]))
    requires forall i :: 0 <= i < |ms| ==> fixed || ms[i].role != ToolResult
    ensures Flush(Run(fixed, st, Expand(Sections(ms)))) == Flush(st) + Kept(ms)
    decreases |ms|
  {
    if |ms| == 0 {
      assert Expand(Sections(ms)) == [];
      assert Flush(st) + Kept(ms) == Flush(st);
    } else {
      var st1 := Run(fixed, st, Expand(SectionOf(ms[0])));
      assert forall i :: 0 <= i < |ms[1..]| ==> ms[1..][i] == ms[i + 1];
      SectionsEffect(fixed, st1, ms[1..]);
      SectionsEffectStep(fixed, st, ms);
    }
  }

  lemma SectionsEffectStep(fixed: bool, st: LoadState, ms: seq<Message>)
    requires |ms| > 0 && (ms[0].role == System || Restorable(Shown(ms[0])))
    requires fixed || ms[0].role != ToolResult
    requires var st1 := Run(fixed, st, Expand(SectionOf(ms[0])));
             Flush(Run(fixed, st1, Expand(Sections(ms[1..])))) == Flush(st1) + Kept(ms[1..])
    ensures Flush(Run(fixed, st, Expand(Sections(ms)))) == Flush(st) + Kept(ms)
  {
    var first := SectionOf(ms[0]);
    var rest := Sections(ms[1..]);
    assert Sections(ms) == first + rest;
    ExpandAppend(first, rest);
    RunAppend(fixed, st, Expand(first), Expand(rest));
    MessageEffect(fixed, st, ms[0]);
    assert Kept(ms) == KeptOne(ms[0]) + Kept(ms[1..]);
    ConcatAssoc(Flush(st), KeptOne(ms[0]), Kept(ms[1..]));
  }

  /** Saving a conversation and loading the file back restores its user and
      assistant messages, in order, provided their shown contents are
      restorable and the model name and date fit on one line without a
      carriage return. The corrected parse does so for every conversation;
      the program's parse does so for one without tool results (see
      `ToolResultLeaksAsWritten`). */
  lemma SaveLoadRoundTrip(fixed: bool, date: string, model: string, ms: seq<Message>)
    requires '\n' !in date && '\n' !in model && '\r' !in date && '\r' !in model
    requires forall i :: 0 <= i < |ms| ==> ms[i].role == System || Restorable(Shown(ms[i]))
    requires forall i :: 0 <= i < |ms| ==> fixed || ms[i].role != ToolResult
    ensures Load(fixed, FileOps.ReadText(SaveText(date, model, ms))) == Kept(ms)
  {
    SaveTextNoCr(date, model, ms);
    SavedLines(date, model, ms);
    RunAppend(fixed, Start, Header(date, model), Expand(Sections(ms)));
    HeaderIgnored(fixed, date, model);
    SectionsEffect(fixed, Start, ms);
    assert Flush(Start) == [];
  }

  /** A saved file holds a carriage return only where a saved content, the
      date or the model name does, so reading it back changes nothing. */
  lemma SaveTextNoCr(date: string, model: string, ms: seq<Message>)
    requires '\r' !in date && '\r' !in model
    requires forall i :: 0 <= i < |ms| ==> ms[i].role == System || '\r' !in Shown(ms[i])
    ensures '\r' !in SaveText(date, model, ms)
    ensures FileOps.ReadText(SaveText(date, model, ms)) == SaveText(date, model, ms)
  {
    var h := Header(date, model);
    assert forall i :: 0 <= i < |h| ==> '\r' !in h[i];
    SectionsNoCr(ms);
    var xs := h + Sections(ms);
    assert forall i :: 0 <= i < |xs| ==> '\r' !in xs[i] by {
      forall i | 0 <= i < |xs|
        ensures '\r' !in xs[i]
      {
        if i >= |h| {
          assert xs[i] == Sections(ms)[i - |h|];
        }
      }
    }
    JoinNoChar(xs, "\n", '\r');
  }

  lemma {:induction false} SectionsNoCr(ms: seq<Message>)
    requires forall i :: 0 <= i < |ms| ==> ms[i].role == System || '\r' !in Shown(ms[i])
    ensures forall i :: 0 <= i < |Sections(ms)| ==> '\r' !in Sections(ms)[i]
    decreases |ms|
  {
    if |ms| > 0 {
      assert forall i :: 0 <= i < |ms[1..]| ==> ms[1..][i] == ms[i + 1];
      SectionsNoCr(ms[1..]);
      var a, b := SectionOf(ms[0]), Sections(ms[1..]);
      assert Sections(ms) == a + b;
      assert forall i :: 0 <= i < |a| ==> '\r' !in a[i];
    }
  }

  lemma {:induction false} JoinNoChar(xs: seq<string>, sep: string, c: char)
    requires c !in sep && forall i :: 0 <= i < |xs| ==> c !in xs[i]
    ensures c !in Join(xs, sep)
    decreases |xs|
  {
    if |xs| > 1 {
      JoinNoChar(xs[1..], sep, c);
    }
  }

  /** As the program has it, the lines of a TOOL section are collected into
      the assistant message before it: an assistant reply `a` followed by a
      tool result `c` loads back as one assistant message holding both. */
  lemma ToolResultLeaksAsWritten(date: string, model: string, a: string, c: string)
    requires '\n' !in date && '\n' !in model
    requires a != "" && c != "" && Restorable(a) && Restorable(c)
    ensures var ms := [Restored(Assistant, a), Restored(ToolResult, c)];
            Load(false, SaveText(date, model, ms)) == [Restored(Assistant, a + "\n\n\n" + c)]
            && Load(false, SaveText(date, model, ms)) != Kept(ms)
  {
    var ms := [Restored(Assistant, a), Restored(ToolResult, c)];
    LeakRun(date, model, a, c);
    LeakedText(a, c);
    KeptAssistantTool(a, c);
    var joined := a + "\n\n\n" + c;
    assert |joined| > |a|;
    assert [Restored(Assistant, joined)][0].content != [Restored(Assistant, a)][0].content;
  }

  lemma KeptAssistantTool(a: string, c: string)
    requires a != ""
    ensures Kept([Restored(Assistant, a), Restored(ToolResult, c)]) == [Restored(Assistant, a)]
  {
    var ms := [Restored(Assistant, a), Restored(ToolResult, c)];
    assert Kept(ms) == KeptOne(ms[0]) + Kept(ms[1..]);
    assert Kept(ms[1..]) == KeptOne(ms[1]) + Kept(ms[1..][1..]);
    assert ms[1..][1..] == [];
  }

  lemma TwoSections(ms: seq<Message>)
    requires |ms| == 2 && ms[0].role != System && ms[1].role != System
    ensures Sections(ms) == Section(ms[0]) + Section(ms[1])
  {
    assert Sections(ms) == SectionOf(ms[0]) + Sections(ms[1..]);
    assert Sections(ms[1..]) == SectionOf(ms[1]) + Sections(ms[1..][1..]);
    assert ms[1..][1..] == [];
  }

  /** The as-written parse of the two-section file, line by line. */
  lemma LeakRun(date: string, model: string, a: string, c: string)
    requires '\n' !in date && '\n' !in model
    requires a != "" && c != "" && Restorable(a) && Restorable(c)
    ensures Run(false, Start, Split(SaveText(date, model, [Restored(Assistant, a), Restored(ToolResult, c)]), '\n'))
            == LoadState([], Some(Assistant), Body(a) + Body(c))
  {
    var ms := [Restored(Assistant, a), Restored(ToolResult, c)];
    var m0, m1 := ms[0], ms[1];
    var sa, sc := Section(m0), Section(m1);
    var h := Header(date, model);
    var ea, ec := Expand(sa), Expand(sc);
    TwoSections(ms);
    SavedLines(date, model, ms);
    ExpandAppend(sa, sc);
    var lines := Split(SaveText(date, model, ms), '\n');
    assert lines == h + (ea + ec);
    RunAppend(false, Start, h, ea + ec);
    HeaderIgnored(false, date, model);
    assert Run(false, Start, lines) == Run(false, Start, ea + ec);
    RunAppend(false, Start, ea, ec);
    var s2 := LoadState([], Some(Assistant), Body(Shown(m0)));
    AssistantSectionRun(Start, m0);
    assert Run(false, Start, ea) == s2;
    ToolSectionRunAsWritten(s2, m1);
    assert Run(false, s2, ec) == s2.(buf := s2.buf + Body(Shown(m1)));
  }

  lemma AssistantSectionRun(st: LoadState, m: Message)
    requires m.role == Assistant && Restorable(Shown(m))
    ensures Run(false, st, Expand(Section(m))) == LoadState(Flush(st), Some(Assistant), Body(Shown(m)))
  {
    var c := Shown(m);
    SectionRun(false, st, m);
    OpenSection(false, st, m);
    var st1 := LoadState(Flush(st), Some(m.role), []);
    BodyPlain(c);
    RunPlain(false, st1, Body(c));
    assert [] + Body(c) == Body(c);
  }

  lemma ToolSectionRunAsWritten(st: LoadState, m: Message)
    requires st.role.Some? && m.role == ToolResult && Restorable(Shown(m))
    ensures Run(false, st, Expand(Section(m))) == st.(buf := st.buf + Body(Shown(m)))
  {
    SectionRun(false, st, m);
    OpenSection(false, st, m);
    BodyPlain(Shown(m));
    RunPlain(false, st, Body(Shown(m)));
  }

  /** The text of an assistant section followed by a tool section. */
  lemma LeakedText(a: string, c: string)
    requires a != "" && c != "" && Strip(a) == a && Strip(c) == c
    ensures Strip(Join(Body(a) + Body(c), "\n")) == a + "\n\n\n" + c
  {
    LeakedJoin(a, c);
    StripPadded("\n", a + "\n\n\n" + c, "\n");
    LeakedMiddle(a, c);
  }

  /** Two stripped texts around blank lines make a stripped text. */
  lemma LeakedMiddle(a: string, c: string)
    requires a != "" && c != "" && Strip(a) == a && Strip(c) == c
    ensures Strip(a + "\n\n\n" + c) == a + "\n\n\n" + c
  {
    StrippedEnds(a);
    StrippedEnds(c);
    EndsOfJoined(a, "\n\n\n", c);
    StripKeeps(a + "\n\n\n" + c);
  }

  lemma EndsOfJoined(a: string, m: string, c: string)
    requires a != "" && c != ""
    ensures (a + m + c)[0] == a[0] && (a + m + c)[|a + m + c| - 1] == c[|c| - 1]
  {
  }

  lemma LeakedJoin(a: string, c: string)
    ensures Join(Body(a) + Body(c), "\n") == "\n" + (a + "\n\n\n" + c) + "\n"
  {
    JoinConcat(Body(a), Body(c), "\n");
    BodyJoin(a);
    BodyJoin(c);
    Regroup(a, c);
  }

  lemma Regroup(a: string, c: string)
    ensures ("\n" + a + "\n") + "\n" + ("\n" + c + "\n") == "\n" + (a + "\n\n\n" + c) + "\n"
  {
  }

  /** Saving a conversation and restoring the file gives a fresh system
      prompt followed by the saved user and assistant messages. */
  lemma SaveRestore(env: PromptEnv, st: TaskStore, date: string, model: string, c: Conversation, fixed: bool)
    requires '\n' !in date && '\n' !in model && '\r' !in date && '\r' !in model
    requires forall i :: 0 <= i < |c.messages| ==> c.messages[i].role == System || Restorable(Shown(c.messages[i]))
    requires forall i :: 0 <= i < |c.messages| ==> fixed || c.messages[i].role != ToolResult
    ensures var (r, n) := Restore(env, st, SaveText(date, model, c.messages), fixed);
            r.messages == New(env, st).messages + Kept(c.messages) && n == |Kept(c.messages)|
  {
    SaveLoadRoundTrip(fixed, date, model, c.messages);
  }
}
