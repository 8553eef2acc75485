/** `AgentRunner` (`agents/runner.py`): which agent a requested kind or
    name gives, and the runner's bookkeeping — the agent running in the
    foreground, the background agents still running, and the results of
    the finished ones. An agent's own run is an input here: each operation
    is given the outcome that `await agent.run(...)` produced. */
module AgentRunner {
  import opened Wrappers
  import opened OrderedMaps
  import opened AgentBase
  import PluginRegistry
  import PluginLoader

  /** What `create_agent` is asked for: a kind's value string or name, or
      an `AgentType` member. */
  datatype Requested = Named(name: string) | Typed(kind: AgentType)

  /** The agent `create_agent` builds. */
  datatype Spawn = BuiltIn(kind: AgentType) | FromPlugin(def: PluginLoader.AgentDef)

  /** The plugin definition registered under `name`, when a plugin registry
      has been set. */
  function PluginDef(plugins: Option<PluginRegistry.Registry>, name: string): Option<PluginLoader.AgentDef> {
    if plugins.Some? then PluginRegistry.GetAgent(plugins.value, name) else None
  }

  /** `create_agent`: a name the plugin registry knows gives that plugin
      agent; otherwise the kind is read from the value string (an unknown
      string counts as "explore"), and only "plan" gives a planning agent —
      every other kind, "general" and "bash" included, gives an explorer. */
  function Create(plugins: Option<PluginRegistry.Registry>, req: Requested): (r: Spawn)
    ensures r.FromPlugin? <==> req.Named? && PluginDef(plugins, req.name).Some?
    ensures r.FromPlugin? ==> r.def == PluginDef(plugins, req.name).value
    ensures r.BuiltIn? ==> r.kind == Explore || r.kind == Plan
    ensures r == BuiltIn(Plan) <==>
              (req.Typed? && req.kind == Plan)
              || (req.Named? && PluginDef(plugins, req.name).None? && req.name == TypeValue(Plan))
  {
    match req
    case Named(name) =>
      var d := PluginDef(plugins, name);
      if d.Some? then FromPlugin(d.value)
      else
        var kind := ParseAgentType(name).GetOr(Explore);
        if kind == Plan then BuiltIn(Plan) else BuiltIn(Explore)
    case Typed(kind) =>
      if kind == Plan then BuiltIn(Plan) else BuiltIn(Explore)
  }

  /** A plugin agent of the same name shadows a built-in kind. */
  lemma PluginShadowsBuiltIn(plugins: PluginRegistry.Registry, def: PluginLoader.AgentDef)
    requires PluginRegistry.GetAgent(plugins, TypeValue(Plan)) == Some(def)
    ensures Create(Some(plugins), Named(TypeValue(Plan))) == FromPlugin(def)
  {
  }

  /** Without a plugin registry, a name is read as a kind alone. */
  lemma NoPluginsByKind(name: string)
    ensures Create(None, Named(name)) == Create(None, Typed(ParseAgentType(name).GetOr(Explore)))
  {
  }

  /** Asking for "general" by name or by member gives an explorer. */
  lemma GeneralGivesExplorer(plugins: Option<PluginRegistry.Registry>, name: string)
    requires name == TypeValue(General) && PluginDef(plugins, name).None?
    ensures Create(plugins, Named(name)) == BuiltIn(Explore)
    ensures Create(plugins, Typed(General)) == BuiltIn(Explore)
  {
  }

  /** A background agent: the agent object, what kind of agent it is, and
      the prompt it was given (the asyncio task is not modelled). */
  datatype Entry = Entry(agent: Agent, spawn: Spawn, prompt: string)

  /** The runner's state: `_running_agents`, `_completed_results` and
      `_current_agent`, with the plugin registry it consults. */
  datatype Runner = Runner(plugins: Option<PluginRegistry.Registry>, running: OMap<Entry>,
                           completed: OMap<AgentResult>, current: Option<Agent>)

  /** Both dicts hold each key once. */
  predicate Valid(r: Runner) {
    UniqueKeys(r.running) && UniqueKeys(r.completed)
  }

  /** A fresh runner. */
  function NewRunner(): (r: Runner)
    ensures Valid(r) && r.plugins.None? && r.current.None?
    ensures forall id :: !HasKey(r.running, id) && Get(r.completed, id).None?
  {
    Runner(None, [], [], None)
  }

  /** `set_plugin_registry`. */
  function SetPlugins(r: Runner, plugins: PluginRegistry.Registry): Runner {
    r.(plugins := Some(plugins))
  }

  /** `cancel_current`: sets the cancel flag of the foreground agent, if
      there is one. */
  function CancelCurrent(r: Runner): (r': Runner)
    ensures r.current.None? ==> r' == r
    ensures r.current.Some? ==> r'.current.Some? && r'.current.value.cancelled
                                && r'.current.value.agentId == r.current.value.agentId
    ensures r'.running == r.running && r'.completed == r.completed && r'.plugins == r.plugins
  {
    if r.current.Some? then r.(current := Some(Cancel(r.current.value))) else r
  }

  /** The foreground run has begun: the new agent, whose id is cut from the
      freshly generated `uuid`, is the current one. */
  function Begin(r: Runner, uuid: string): (r': Runner)
    ensures r'.current == Some(NewAgent(None, uuid))
    ensures r'.running == r.running && r'.completed == r.completed && r'.plugins == r.plugins
  {
    r.(current := Some(NewAgent(None, uuid)))
  }

  /** What `run_agent` gives back: the result, or the exception that
      escaped the agent's run. */
  datatype Returned = Result(result: AgentResult) | Raised(error: string)

  /** `run_agent`: the agent built for `req` runs on `prompt` (its run is
      `run`); it is current while it runs and is no longer current
      afterwards, whether or not its run raised; a result is stored under
      the agent's id, and an exception is passed on with nothing stored. */
  function RunAgent(r: Runner, req: Requested, prompt: string, uuid: string,
                    run: (Spawn, string) -> RunOutcome): (out: (Runner, Returned))
    requires Valid(r)
    ensures Valid(out.0)
    ensures out.0.current.None?
    ensures out.0.running == r.running && out.0.plugins == r.plugins
    ensures var outcome := run(Create(r.plugins, req), prompt);
            && (outcome.Finished? ==> out.1 == Result(outcome.result))
            && (outcome.Crashed? ==> out.1 == Raised(outcome.error) && out.0.completed == r.completed)
    ensures var id := NewAgent(None, uuid).agentId;
            && (out.1.Result? ==> Get(out.0.completed, id) == Some(out.1.result))
            && (forall k :: k != id ==> Get(out.0.completed, k) == Get(r.completed, k))
  {
    var agent := Begin(r, uuid).current.value;
    var cleared := r.(current := None);
    match run(Create(r.plugins, req), prompt)
    case Finished(result) => (cleared.(completed := Put(r.completed, agent.agentId, result)), Result(result))
    case Crashed(e) => (cleared, Raised(e))
  }

  /** `run_agent_background`: the agent is in the running map as soon as
      the call returns its id; nothing is stored yet. */
  function RunBackground(r: Runner, req: Requested, prompt: string, uuid: string): (out: (Runner, string))
    requires Valid(r)
    ensures Valid(out.0)
    ensures out.1 == NewAgent(None, uuid).agentId
    ensures Get(out.0.running, out.1) == Some(Entry(NewAgent(None, uuid), Create(r.plugins, req), prompt))
    ensures forall k :: k != out.1 ==> Get(out.0.running, k) == Get(r.running, k)
    ensures out.0.completed == r.completed && out.0.current == r.current && out.0.plugins == r.plugins
  {
    var agent := NewAgent(None, uuid);
    (r.(running := Put(r.running, agent.agentId, Entry(agent, Create(r.plugins, req), prompt))), agent.agentId)
  }

  /** The background task for `id` has finished its run (`run_and_store`):
      a result is stored and the id leaves the running map. A run that
      raised stores nothing and leaves its entry in place. */
  function Complete(r: Runner, id: string, outcome: RunOutcome): (r': Runner)
    requires Valid(r)
    ensures Valid(r')
    ensures outcome.Crashed? ==> r' == r
    ensures outcome.Finished? ==>
              Get(r'.completed, id) == Some(outcome.result) && !HasKey(r'.running, id)
    ensures forall k :: k != id ==> Get(r'.completed, k) == Get(r.completed, k) && Get(r'.running, k) == Get(r.running, k)
    ensures r'.current == r.current && r'.plugins == r.plugins
  {
    match outcome
    case Finished(result) => r.(completed := Put(r.completed, id, result), running := Remove(r.running, id))
    case Crashed(_) => r
  }

  /** `get_running_agents`: the running ids, in the order they started. */
  function RunningIds(r: Runner): (ids: seq<string>)
    ensures forall id :: id in ids <==> HasKey(r.running, id)
    ensures |ids| == |r.running|
  {
    forall id ensures HasKey(r.running, id) <==> id in Keys(r.running) {
      HasKeyIffInKeys(r.running, id);
    }
    Keys(r.running)
  }

  /** `get_result`. */
  function GetResult(r: Runner, id: string): Option<AgentResult> {
    Get(r.completed, id)
  }

  /** A timeout given to `wait_for_agent`: `None` or zero means wait as
      long as it takes. */
  predicate Limited(timeout: Option<real>) {
    timeout.Some? && timeout.value != 0.0
  }

  /** What `wait_for_agent` gives back. */
  datatype Waited = Got(result: AgentResult) | Nothing | WaitRaised(error: string)

  /** `wait_for_agent`: a stored result first; an id that is neither stored
      nor running gives nothing; otherwise the wait ends with the task's run
      (`outcome`) unless a timeout is set and the run does not finish
      within it (`inTime` false), which gives nothing. When the run finishes
      its completion is recorded as `Complete` does. */
  function WaitForAgent(r: Runner, id: string, timeout: Option<real>, outcome: RunOutcome, inTime: bool): (out: (Runner, Waited))
    requires Valid(r)
    ensures Valid(out.0)
    ensures HasKey(r.completed, id) ==> out == (r, Got(Get(r.completed, id).value))
    ensures !HasKey(r.completed, id) && !HasKey(r.running, id) ==> out == (r, Nothing)
    ensures !HasKey(r.completed, id) && Limited(timeout) && !inTime ==> out == (r, Nothing)
    ensures !HasKey(r.completed, id) && HasKey(r.running, id) && (!Limited(timeout) || inTime) ==>
              match outcome
              case Finished(result) => out == (Complete(r, id, outcome), Got(result))
              case Crashed(e) => out == (r, WaitRaised(e))
    ensures out.1.Got? ==> GetResult(out.0, id) == Some(out.1.result)
    ensures out.1.WaitRaised? ==> outcome == Crashed(out.1.error) && out.0 == r
  {
    var done := Get(r.completed, id);
    if done.Some? then (r, Got(done.value))
    else if !HasKey(r.running, id) then (r, Nothing)
    else if Limited(timeout) && !inTime then (r, Nothing)
    else
      match outcome
      case Finished(result) => (Complete(r, id, outcome), Got(result))
      case Crashed(e) => (r, WaitRaised(e))
  }

  /** `cancel_agent`: an id that is not running gives false and changes
      nothing; a running one has its agent cancelled, leaves the map, and
      gives true. */
  function CancelAgent(r: Runner, id: string): (out: (Runner, bool))
    requires Valid(r)
    ensures Valid(out.0)
    ensures out.1 <==> HasKey(r.running, id)
    ensures !out.1 ==> out.0 == r
    ensures !HasKey(out.0.running, id)
    ensures forall k :: k != id ==> Get(out.0.running, k) == Get(r.running, k)
    ensures out.0.completed == r.completed && out.0.current == r.current && out.0.plugins == r.plugins
  {
    if HasKey(r.running, id) then (r.(running := Remove(r.running, id)), true)
    else (r, false)
  }

  /** A background agent is listed from the moment it starts until its
      run finishes, and then its result can be fetched. */
  lemma BackgroundLifecycle(r: Runner, req: Requested, prompt: string, uuid: string, result: AgentResult)
    requires Valid(r)
    ensures var (started, id) := RunBackground(r, req, prompt, uuid);
            && id in RunningIds(started)
            && var finished := Complete(started, id, Finished(result));
            && id !in RunningIds(finished)
            && GetResult(finished, id) == Some(result)
  {
    var (started, id) := RunBackground(r, req, prompt, uuid);
    assert HasKey(started.running, id);
  }

  /** A background run that raises stays listed as running. */
  lemma CrashedStaysRunning(r: Runner, req: Requested, prompt: string, uuid: string, e: string)
    requires Valid(r)
    ensures var (started, id) := RunBackground(r, req, prompt, uuid);
            id in RunningIds(Complete(started, id, Crashed(e))) && GetResult(Complete(started, id, Crashed(e)), id) == GetResult(r, id)
  {
    var (started, id) := RunBackground(r, req, prompt, uuid);
    assert HasKey(started.running, id);
  }

  /** A foreground result can be fetched by the agent's id afterwards. */
  lemma RunThenGet(r: Runner, req: Requested, prompt: string, uuid: string, run: (Spawn, string) -> RunOutcome)
    requires Valid(r) && run(Create(r.plugins, req), prompt).Finished?
    ensures GetResult(RunAgent(r, req, prompt, uuid, run).0, NewAgent(None, uuid).agentId)
              == Some(run(Create(r.plugins, req), prompt).result)
  {
  }

  /** Cancelling twice: the second call finds nothing to cancel. */
  lemma CancelTwice(r: Runner, id: string)
    requires Valid(r)
    ensures var once := CancelAgent(r, id).0;
            CancelAgent(once, id) == (once, false)
  {
  }

  /** A cancelled background agent is no longer listed, and waiting for it
      gives nothing unless a result was stored before. */
  lemma WaitAfterCancel(r: Runner, id: string, timeout: Option<real>, outcome: RunOutcome, inTime: bool)
    requires Valid(r) && !HasKey(r.completed, id)
    ensures var once := CancelAgent(r, id).0;
            id !in RunningIds(once) && WaitForAgent(once, id, timeout, outcome, inTime).1 == Nothing
  {
    var once := CancelAgent(r, id).0;
    assert Get(once.completed, id) == Get(r.completed, id);
  }

  /** Waiting for an agent whose result is stored returns that result
      whatever the timeout, and a second wait returns the same. */
  lemma WaitIsStable(r: Runner, id: string, timeout: Option<real>, outcome: RunOutcome, inTime: bool,
                     timeout2: Option<real>, outcome2: RunOutcome, inTime2: bool)
    requires Valid(r)
    ensures var (after, w) := WaitForAgent(r, id, timeout, outcome, inTime);
            w.Got? ==> WaitForAgent(after, id, timeout2, outcome2, inTime2) == (after, w)
  {
    var (after, w) := WaitForAgent(r, id, timeout, outcome, inTime);
    if w.Got? {
      assert HasKey(after.completed, id);
    }
  }
}
