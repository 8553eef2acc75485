/** The background-agent status board (`ui/agents.py`): the activity kept
    per agent as agents are added, report tool calls and messages, finish
    and are removed; and the colour an agent is announced in. Start times
    and the panel's drawing are not modelled. */
module AgentDisplay {
  import opened Wrappers
  import opened Text
  import opened OrderedMaps
  import opened Wire

  datatype Status = Running | Completed | Failed

  /** `AgentActivity`, without its start time. */
  datatype Activity = Activity(agentId: string, agentType: string, description: string, status: Status,
                               currentTool: Option<string>, toolArgs: Option<string>,
                               messages: seq<string>, toolsUsed: nat)

  /** `AgentStatusDisplay._agents`, in the order agents were added. */
  type Board = OMap<Activity>

  const DescriptionWidth: nat := 50
  const KeptMessages: nat := 3

  /** `add_agent`: the agent is shown running, with no tool yet and the
      description cut to 50 characters; an id already shown starts over
      in its old place. */
  function AddAgent(b: Board, id: string, agentType: string, description: string): (r: Board)
    ensures UniqueKeys(b) ==> UniqueKeys(r)
    ensures Get(r, id).Some?
    ensures var a := Get(r, id).value;
            a.agentId == id && a.agentType == agentType && a.status == Running
            && a.currentTool.None? && a.toolArgs.None? && a.messages == [] && a.toolsUsed == 0
            && |a.description| <= DescriptionWidth && a.description <= description
            && (|description| <= DescriptionWidth ==> a.description == description)
    ensures forall k :: k != id ==> Get(r, k) == Get(b, k)
  {
    Put(b, id, Activity(id, agentType, Take(description, DescriptionWidth), Running, None, None, [], 0))
  }

  /** The last three of a list (`xs[-3:]`). */
  function LastThree(xs: seq<string>): (r: seq<string>)
    ensures |r| == if |xs| < KeptMessages then |xs| else KeptMessages
    ensures r == xs[|xs| - |r|..]
  {
    if |xs| <= KeptMessages then xs else xs[|xs| - KeptMessages..]
  }

  /** Keeping the last three after each append is keeping the last three
      at the end. */
  lemma LastThreeAppend(xs: seq<string>, m: string)
    ensures LastThree(LastThree(xs) + [m]) == LastThree(xs + [m])
  {
    var ys := xs + [m];
    if |xs| > KeptMessages {
      assert LastThree(xs) + [m] == ys[|ys| - KeptMessages - 1..];
    }
  }

  /** One `update_agent` call. */
  datatype Update = Update(tool: Option<string>, toolArgs: Option<string>, message: Option<string>)

  /** The activity after one update: a non-empty tool name becomes the
      current tool with its arguments and counts one more tool; a
      non-empty message joins the last three. */
  function Updated(a: Activity, u: Update): (r: Activity)
    ensures r.agentId == a.agentId && r.agentType == a.agentType && r.description == a.description
    ensures r.status == a.status
    ensures Truthy(u.tool) ==> r.currentTool == u.tool && r.toolArgs == u.toolArgs && r.toolsUsed == a.toolsUsed + 1
    ensures !Truthy(u.tool) ==> r.currentTool == a.currentTool && r.toolArgs == a.toolArgs && r.toolsUsed == a.toolsUsed
    ensures Truthy(u.message) ==> r.messages == LastThree(a.messages + [u.message.value])
    ensures !Truthy(u.message) ==> r.messages == a.messages
  {
    var withTool := if Truthy(u.tool) then a.(currentTool := u.tool, toolArgs := u.toolArgs, toolsUsed := a.toolsUsed + 1) else a;
    if Truthy(u.message) then withTool.(messages := LastThree(a.messages + [u.message.value])) else withTool
  }

  /** `update_agent`: an unknown id changes nothing. */
  function UpdateAgent(b: Board, id: string, u: Update): (r: Board)
    ensures UniqueKeys(b) ==> UniqueKeys(r)
    ensures !HasKey(b, id) ==> r == b
    ensures HasKey(b, id) ==> Get(r, id) == Some(Updated(Get(b, id).value, u)) && Keys(r) == Keys(b)
    ensures forall k :: k != id ==> Get(r, k) == Get(b, k)
  {
    match Get(b, id)
    case None => b
    case Some(a) => Put(b, id, Updated(a, u))
  }

  /** `complete_agent`: the agent is marked completed or failed and has no
      current tool; an unknown id changes nothing. */
  function CompleteAgent(b: Board, id: string, success: bool): (r: Board)
    ensures UniqueKeys(b) ==> UniqueKeys(r)
    ensures !HasKey(b, id) ==> r == b
    ensures HasKey(b, id) ==>
              Get(r, id) == Some(Get(b, id).value.(status := if success then Completed else Failed, currentTool := None))
    ensures forall k :: k != id ==> Get(r, k) == Get(b, k)
  {
    match Get(b, id)
    case None => b
    case Some(a) => Put(b, id, a.(status := if success then Completed else Failed, currentTool := None))
  }

  /** `remove_agent`: the agent leaves the board; an unknown id changes
      nothing. */
  function RemoveAgent(b: Board, id: string): (r: Board)
    requires UniqueKeys(b)
    ensures UniqueKeys(r) && !HasKey(r, id)
    ensures !HasKey(b, id) ==> r == b
    ensures forall k :: k != id ==> Get(r, k) == Get(b, k)
  {
    Remove(b, id)
  }

  /** A run of updates to one agent. */
  function UpdateAll(b: Board, id: string, us: seq<Update>): Board
    decreases |us|
  {
    if us == [] then b else UpdateAll(UpdateAgent(b, id, us[0]), id, us[1..])
  }

  /** How many updates named a tool. */
  function ToolCalls(us: seq<Update>): nat
    decreases |us|
  {
    if us == [] then 0 else (if Truthy(us[0].tool) then 1 else 0) + ToolCalls(us[1..])
  }

  /** The non-empty messages of the updates, in order. */
  function Messages(us: seq<Update>): seq<string>
    decreases |us|
  {
    if us == [] then [] else (if Truthy(us[0].message) then [us[0].message.value] else []) + Messages(us[1..])
  }

  /** After a run of updates the agent has counted every tool call and
      shows the last three of all its messages. */
  lemma {:induction false} UpdatesAccumulate(b: Board, id: string, us: seq<Update>)
    requires UniqueKeys(b) && HasKey(b, id) && |Get(b, id).value.messages| <= KeptMessages
    ensures var before, after := Get(b, id).value, Get(UpdateAll(b, id, us), id);
            after.Some?
            && after.value.toolsUsed == before.toolsUsed + ToolCalls(us)
            && after.value.messages == LastThree(before.messages + Messages(us))
            && after.value.status == before.status
    decreases |us|
  {
    var before := Get(b, id).value;
    if us == [] {
      assert before.messages + [] == before.messages;
    } else {
      var next := UpdateAgent(b, id, us[0]);
      assert HasKey(next, id);
      UpdatesAccumulate(next, id, us[1..]);
      MessagesStep(before, us);
    }
  }

  /** One update, then the rest: the last three messages come out as if
      all the messages had been appended at once. */
  lemma {:induction false} MessagesStep(before: Activity, us: seq<Update>)
    requires us != []
    ensures LastThree(Updated(before, us[0]).messages + Messages(us[1..])) == LastThree(before.messages + Messages(us))
  {
    var rest := Messages(us[1..]);
    if Truthy(us[0].message) {
      var m := us[0].message.value;
      assert Messages(us) == [m] + rest;
      assert Updated(before, us[0]).messages == LastThree(before.messages + [m]);
      LastThreeAppendAll(before.messages + [m], rest);
      assert before.messages + Messages(us) == (before.messages + [m]) + rest;
    } else {
      assert Messages(us) == rest;
    }
  }

  /** Cutting to the last three before appending does not change the last
      three after. */
  lemma {:induction false} LastThreeAppendAll(xs: seq<string>, ys: seq<string>)
    ensures LastThree(LastThree(xs) + ys) == LastThree(xs + ys)
    decreases |ys|
  {
    if ys != [] {
      var init, m := ys[..|ys| - 1], ys[|ys| - 1];
      LastThreeAppendAll(xs, init);
      assert LastThree(xs) + ys == (LastThree(xs) + init) + [m];
      assert xs + ys == (xs + init) + [m];
      LastThreeAppend(LastThree(xs) + init, m);
      LastThreeAppend(xs + init, m);
    } else {
      assert LastThree(xs) + ys == LastThree(xs);
      assert xs + ys == xs;
    }
  }

  /** Updates, completion and removal of an agent the board does not show
      leave it as it is. */
  lemma UnknownAgentIgnored(b: Board, id: string, u: Update, success: bool)
    requires UniqueKeys(b) && !HasKey(b, id)
    ensures UpdateAgent(b, id, u) == b
    ensures CompleteAgent(b, id, success) == b
    ensures RemoveAgent(b, id) == b
  {
  }

  /** An agent added, updated and completed keeps what it counted and has
      no current tool. */
  lemma AddUpdateComplete(b: Board, id: string, agentType: string, description: string,
                          us: seq<Update>, success: bool)
    requires UniqueKeys(b)
    ensures var added := AddAgent(b, id, agentType, description);
            var done := CompleteAgent(UpdateAll(added, id, us), id, success);
            Get(done, id).Some?
            && Get(done, id).value.toolsUsed == ToolCalls(us)
            && Get(done, id).value.currentTool.None?
            && Get(done, id).value.status == (if success then Completed else Failed)
            && |Get(done, id).value.messages| <= KeptMessages
  {
    var added := AddAgent(b, id, agentType, description);
    assert HasKey(added, id);
    UpdatesAccumulate(added, id, us);
    assert [] + Messages(us) == Messages(us);
  }

  /** `AGENT_COLORS`: the colour of each known agent type. */
  const AgentColors: OMap<string> := [
    ("explore", "#56b6c2"), ("plan", "#c678dd"), ("general", "#61afef"),
    ("code-reviewer", "#e06c75"), ("default", "#5f9ea0")]

  const DefaultColor: string := "#5f9ea0"

  /** `show_agent_start`'s colour: the one given when it is not empty,
      else the type's own, else the default one. */
  function StartColor(color: Option<string>, agentType: string): (r: string)
    ensures Truthy(color) ==> r == color.value
    ensures !Truthy(color) && HasKey(AgentColors, agentType) ==> r == Get(AgentColors, agentType).value
    ensures !Truthy(color) && !HasKey(AgentColors, agentType) ==> r == DefaultColor
  {
    if Truthy(color) then color.value
    else match Get(AgentColors, agentType)
      case Some(c) => c
      case None => DefaultColor
  }

  /** Without a colour of its own, an agent is announced in a colour of
      the palette; the built-in types each have a distinct one. */
  lemma StartColorFromPalette(agentType: string)
    ensures StartColor(None, agentType) in Values(AgentColors)
    ensures StartColor(None, "default") == DefaultColor
    ensures |{StartColor(None, "explore"), StartColor(None, "plan"), StartColor(None, "general")}| == 3
  {
    assert Values(AgentColors)[4] == DefaultColor;
    match IndexOf(AgentColors, agentType)
    case Some(i) =>
      assert Values(AgentColors)[i] == AgentColors[i].1;
    case None =>
  }
}
