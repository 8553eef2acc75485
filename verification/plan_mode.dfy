/** Plan mode (`tools/plan_mode.py`): the shared `PlanModeState` and the
    `enter_plan_mode`, `write_plan`, `exit_plan_mode` and `ask_user` tools.
    The plan file the state writes is kept in a map from path to content;
    the plans directory and the random hex of a new file name are inputs. */
module PlanMode {
  import opened Text

  /** `PlanModeState`: whether plan mode is on, the plan's file, and the
      plan written so far. */
  datatype State = State(active: bool, planFile: string, planContent: string)

  /** The instance `get_instance` creates on first use. */
  const Initial: State := State(false, "", "")

  const PlanPrefix: string := "plan-"
  const PlanSuffix: string := ".md"

  /** The default plan file: `<plans dir>/plan-<first 8 hex digits>.md`. */
  function DefaultPlanFile(plansDir: string, hex: string): (r: string)
    ensures StartsWith(r, plansDir + "/" + PlanPrefix) && EndsWith(r, PlanSuffix)
    ensures |r| <= |plansDir| + |PlanPrefix| + 8 + |PlanSuffix| + 1
  {
    plansDir + "/" + PlanPrefix + Take(hex, 8) + PlanSuffix
  }

  /** `enter`: plan mode is on with an empty plan; an explicit file name is
      kept as given, and an empty one is replaced by a fresh default. */
  function Enter(st: State, planFile: string, plansDir: string, hex: string): (r: State)
    ensures r.active && r.planContent == ""
    ensures planFile != "" ==> r.planFile == planFile
    ensures planFile == "" ==> r.planFile == DefaultPlanFile(plansDir, hex)
  {
    var file := if planFile != "" then planFile else DefaultPlanFile(plansDir, hex);
    State(true, file, "")
  }

  /** `set_plan`: the content is kept and, when there is a plan file,
      written to it. */
  function SetPlan(st: State, files: map<string, string>, content: string): (r: (State, map<string, string>))
    ensures r.0 == st.(planContent := content)
    ensures st.planFile != "" ==> st.planFile in r.1 && r.1[st.planFile] == content
    ensures forall p :: p != st.planFile ==> (p in r.1 <==> p in files) && (p in files ==> r.1[p] == files[p])
    ensures st.planFile == "" ==> r.1 == files
  {
    (st.(planContent := content), if st.planFile != "" then files[st.planFile := content] else files)
  }

  const EnterHead: string :=
    "Entered plan mode.\n\nIn plan mode:\n1. Use read_file, glob, grep to explore the codebase\n"
    + "2. Use task agent to explore complex areas\n3. Design your implementation approach\n"
    + "4. Write your plan using write_plan tool\n5. Call exit_plan_mode when ready for user approval\n\n"
    + "Plan will be saved to: "
  const EnterTail: string := "\n\nDO NOT make any edits to code files while in plan mode."

  /** `enter_plan_mode`: always enters, with a default file, and names it. */
  function EnterTool(st: State, plansDir: string, hex: string): (r: (State, string))
    ensures r.0 == Enter(st, "", plansDir, hex)
    ensures r.1 == EnterHead + r.0.planFile + EnterTail
  {
    var s := Enter(st, "", plansDir, hex);
    (s, EnterHead + s.planFile + EnterTail)
  }

  const NotActiveWriteText: string := "Error: Not in plan mode. Call enter_plan_mode first."
  const SavedText: string := "Plan saved to "

  /** `write_plan`: refused, with nothing changed, outside plan mode. */
  function WritePlan(st: State, files: map<string, string>, content: string): (r: (State, map<string, string>, string))
    ensures !st.active ==> r == (st, files, NotActiveWriteText)
    ensures st.active ==> r.0 == st.(planContent := content) && r.2 == SavedText + st.planFile
    ensures st.active ==> (r.0, r.1) == SetPlan(st, files, content)
  {
    if !st.active then (st, files, NotActiveWriteText)
    else
      var (s, fs) := SetPlan(st, files, content);
      (s, fs, SavedText + st.planFile)
  }

  const NotActiveExitText: string := "Error: Not in plan mode."
  const NoPlanText: string := "Warning: No plan was written. Exiting plan mode anyway."
  const ExitHead: string := "Exiting plan mode.\n\n[PLAN FOR USER APPROVAL]\n"
  const ExitTail: string :=
    "\n[END PLAN]\n\nWaiting for user approval. The user should respond with:\n"
    + "- 'approve' or 'yes' to proceed with implementation\n- 'reject' or 'no' to cancel\n"
    + "- Feedback/changes to request modifications"

  /** `exit_plan_mode`: refused outside plan mode; otherwise plan mode ends
      and the plan comes back between the approval markers, or a warning
      when none was written. The plan itself is kept. */
  function ExitPlan(st: State): (r: (State, string))
    ensures !st.active ==> r == (st, NotActiveExitText)
    ensures st.active ==> r.0 == st.(active := false)
    ensures st.active && st.planContent == "" ==> r.1 == NoPlanText
    ensures st.active && st.planContent != "" ==>
              StartsWith(r.1, ExitHead) && EndsWith(r.1, ExitTail)
              && |r.1| == |ExitHead| + |st.planContent| + |ExitTail|
              && r.1[|ExitHead|..|r.1| - |ExitTail|] == st.planContent
  {
    if !st.active then (st, NotActiveExitText)
    else if st.planContent == "" then (st.(active := false), NoPlanText)
    else
      var text := ExitHead + st.planContent + ExitTail;
      assert text[|ExitHead|..|text| - |ExitTail|] == st.planContent;
      (st.(active := false), text)
  }

  /** A plan written in plan mode is what leaving plan mode presents, and
      a second exit is refused. */
  lemma WriteThenExit(st: State, files: map<string, string>, content: string)
    requires st.active && content != ""
    ensures var (s, _, _) := WritePlan(st, files, content);
            var (left, text) := ExitPlan(s);
            && text == ExitHead + content + ExitTail
            && !left.active
            && ExitPlan(left) == (left, NotActiveExitText)
  {
  }

  /** Entering again starts a fresh plan, whatever was written before. */
  lemma EnterForgetsPlan(st: State, files: map<string, string>, content: string, plansDir: string, hex: string)
    requires st.active
    ensures var (s, _, _) := WritePlan(st, files, content);
            var (again, _) := EnterTool(s, plansDir, hex);
            again.active && ExitPlan(again).1 == NoPlanText
  {
  }

  /** After leaving plan mode, writing is refused and changes nothing. */
  lemma ExitThenWriteRefused(st: State, files: map<string, string>, content: string)
    ensures var (left, _) := ExitPlan(st);
            WritePlan(left, files, content) == (left, files, NotActiveWriteText)
  {
  }

  const QuestionHead: string := "[QUESTION FOR USER]\n"
  const OptionsHead: string := "\n\nOptions:"
  const QuestionTail: string := "\n[END QUESTION]"

  /** One option line, numbered `n`. */
  function OptionLine(n: nat, option: string): string {
    "\n  " + NatToString(n) + ". " + option
  }

  /** The option lines, numbered from `n` in order. */
  function Numbered(options: seq<string>, n: nat): string
    decreases |options|
  {
    if |options| == 0 then "" else OptionLine(n, options[0]) + Numbered(options[1..], n + 1)
  }

  /** Numbering a concatenation continues where the first part stopped. */
  lemma {:induction false} NumberedConcat(a: seq<string>, b: seq<string>, n: nat)
    ensures Numbered(a + b, n) == Numbered(a, n) + Numbered(b, n + |a|)
    decreases |a|
  {
    if |a| == 0 {
      assert a + b == b;
    } else {
      assert (a + b)[1..] == a[1..] + b;
      NumberedConcat(a[1..], b, n + 1);
      ConcatAssoc(OptionLine(n, a[0]), Numbered(a[1..], n + 1), Numbered(b, n + |a|));
    }
  }

  /** Option `i` (from 0) is listed as number `i + 1`, between the options
      before it and the options after it. */
  lemma OptionListed(options: seq<string>, i: nat)
    requires i < |options|
    ensures Numbered(options, 1) ==
              Numbered(options[..i], 1) + OptionLine(i + 1, options[i]) + Numbered(options[i + 1..], i + 2)
  {
    assert options == options[..i] + options[i..];
    NumberedConcat(options[..i], options[i..], 1);
    assert Numbered(options[i..], i + 1) == OptionLine(i + 1, options[i]) + Numbered(options[i + 1..], i + 2) by {
      assert options[i..][1..] == options[i + 1..];
    }
    ConcatAssoc(Numbered(options[..i], 1), OptionLine(i + 1, options[i]), Numbered(options[i + 1..], i + 2));
  }

  /** `ask_user`: the question, then — when there are options — the options
      numbered from 1, then the closing marker. */
  function AskUser(question: string, options: seq<string>): (r: string)
    ensures StartsWith(r, QuestionHead + question) && EndsWith(r, QuestionTail)
    ensures |options| == 0 ==> r == QuestionHead + question + QuestionTail
    ensures |r| >= |QuestionHead| + |question| + |QuestionTail|
    ensures |options| > 0 ==> r[|QuestionHead| + |question|..|r| - |QuestionTail|] == OptionsHead + Numbered(options, 1)
  {
    var listed := if |options| > 0 then OptionsHead + Numbered(options, 1) else "";
    var r := QuestionHead + question + listed + QuestionTail;
    assert r[|QuestionHead| + |question|..|r| - |QuestionTail|] == listed;
    r
  }
}
