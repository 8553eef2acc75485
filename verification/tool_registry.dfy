/** `ToolRegistry`: tools keyed by name in registration order, and the one
    place where tool calls are dispatched. Unknown names and handler
    exceptions come back as error strings; nothing propagates. */
module ToolRegistry {
  import opened Wrappers
  import opened OrderedMaps
  import opened Json
  import opened Text
  import opened ToolBase

  type Registry = OMap<Tool>

  /** Every entry is stored under its own tool's name. */
  predicate Keyed(reg: Registry) {
    UniqueKeys(reg) && forall i :: 0 <= i < |reg| ==> reg[i].0 == reg[i].1.name
  }

  function Empty(): (r: Registry)
    ensures Keyed(r)
  {
    []
  }

  /** `register`: assignment under the tool's name. A tool registered again
      replaces the old one but keeps its place in listing order. */
  function Register(reg: Registry, t: Tool): (r: Registry)
    ensures Keyed(reg) ==> Keyed(r)
    ensures Lookup(r, t.name) == Some(t)
    ensures forall n :: n != t.name ==> Lookup(r, n) == Lookup(reg, n)
    ensures HasKey(reg, t.name) ==> Keys(r) == Keys(reg)
    ensures !HasKey(reg, t.name) ==> Keys(r) == Keys(reg) + [t.name]
  {
    var r := Put(reg, t.name, t);
    assert Keyed(reg) ==> Keyed(r) by {
      if Keyed(reg) {
        forall i | 0 <= i < |r|
          ensures r[i].0 == r[i].1.name
        {
          if i < |reg| && reg[i].0 != t.name {
            // entries for other names are carried over untouched
            assert Get(r, r[i].0) == Get(reg, r[i].0);
          }
        }
      }
    }
    r
  }

  /** `get`: the tool registered under `name`, if any. */
  function Lookup(reg: Registry, name: string): Option<Tool> {
    Get(reg, name)
  }

  /** `list_tools`: every registered tool, in registration order. */
  function ListTools(reg: Registry): (r: seq<Tool>)
    ensures |r| == |reg|
    ensures forall i :: 0 <= i < |r| ==> r[i] == reg[i].1
  {
    Values(reg)
  }

  /** `get_schemas`: one schema per registered tool, in listing order. */
  function GetSchemas(reg: Registry): (r: seq<Json>)
    ensures |r| == |ListTools(reg)|
    ensures forall i :: 0 <= i < |r| ==> r[i] == ToOpenAISchema(ListTools(reg)[i])
  {
    seq(|reg|, i requires 0 <= i < |reg| => ToOpenAISchema(reg[i].1))
  }

  /** The schemas name exactly the registered tools, in order. */
  lemma SchemaNamesAreKeys(reg: Registry)
    requires Keyed(reg)
    ensures |GetSchemas(reg)| == |Keys(reg)|
    ensures forall i :: 0 <= i < |reg| ==>
              SchemaParts(GetSchemas(reg)[i]).Some? && SchemaParts(GetSchemas(reg)[i]).value.0 == Keys(reg)[i]
  {
    forall i | 0 <= i < |reg|
      ensures SchemaParts(GetSchemas(reg)[i]).Some? && SchemaParts(GetSchemas(reg)[i]).value.0 == Keys(reg)[i]
    {
      SchemaRoundTrip(reg[i].1);
    }
  }

  function UnknownToolText(name: string): string {
    "Error: Unknown tool '" + name + "'"
  }

  function ExecErrorText(name: string, message: string): string {
    "Error executing " + name + ": " + message
  }

  /** `execute`: `run(t, args)` stands for awaiting `t.execute(**args)`. */
  function Execute(reg: Registry, name: string, args: Json, run: (Tool, Json) -> HandlerOutcome): (r: string)
    ensures Lookup(reg, name).None? ==> r == UnknownToolText(name)
    ensures Lookup(reg, name).Some? && run(Lookup(reg, name).value, args).Returned? ==>
              r == run(Lookup(reg, name).value, args).text
    ensures Lookup(reg, name).Some? && run(Lookup(reg, name).value, args).Raised? ==>
              r == ExecErrorText(name, run(Lookup(reg, name).value, args).message)
  {
    match Lookup(reg, name)
    case None => UnknownToolText(name)
    case Some(t) =>
      match run(t, args)
      case Returned(s) => s
      case Raised(e) => ExecErrorText(name, e)
  }

  /** An unknown name invokes no handler: the answer is the same whatever the
      handlers would have done. */
  lemma UnknownInvokesNothing(reg: Registry, name: string, args: Json,
                              run1: (Tool, Json) -> HandlerOutcome, run2: (Tool, Json) -> HandlerOutcome)
    requires !HasKey(reg, name)
    ensures Execute(reg, name, args, run1) == Execute(reg, name, args, run2)
  {
  }

  /** A registered tool's handler is consulted only for that tool and those
      arguments. */
  lemma ExecuteUsesOnlyOwnHandler(reg: Registry, name: string, args: Json,
                                  run1: (Tool, Json) -> HandlerOutcome, run2: (Tool, Json) -> HandlerOutcome)
    requires HasKey(reg, name)
    requires run1(Lookup(reg, name).value, args) == run2(Lookup(reg, name).value, args)
    ensures Execute(reg, name, args, run1) == Execute(reg, name, args, run2)
  {
  }

  /** Error texts from dispatch are recognisable by their prefix, so a
      handler's own result is returned only when it was not an exception. */
  lemma ExecuteErrorPrefix(reg: Registry, name: string, args: Json, run: (Tool, Json) -> HandlerOutcome)
    requires Lookup(reg, name).None? || run(Lookup(reg, name).value, args).Raised?
    ensures StartsWithError(Execute(reg, name, args, run))
  {
  }

  predicate StartsWithError(s: string) {
    StartsWith(s, "Error")
  }

  /** `setup_agent_runner`: connects the runner to `task` and `task_output`
      when they are registered, and touches nothing else. */
  function SetupAgentRunner(reg: Registry): (r: Registry)
    ensures Keyed(reg) ==> Keyed(r)
    ensures Keys(r) == Keys(reg)
    ensures forall n :: n != "task" && n != "task_output" ==> Lookup(r, n) == Lookup(reg, n)
    ensures forall n :: (n == "task" || n == "task_output") ==>
              (Lookup(r, n).Some? <==> Lookup(reg, n).Some?) &&
              (Lookup(reg, n).Some? ==> Lookup(r, n).value == Lookup(reg, n).value.(hasRunner := true))
  {
    var r1 := ConnectRunner(reg, "task");
    ConnectRunner(r1, "task_output")
  }

  function ConnectRunner(reg: Registry, name: string): (r: Registry)
    ensures Keyed(reg) ==> Keyed(r)
    ensures Keys(r) == Keys(reg)
    ensures forall n :: n != name ==> Lookup(r, n) == Lookup(reg, n)
    ensures Lookup(r, name).Some? <==> Lookup(reg, name).Some?
    ensures Lookup(reg, name).Some? ==> Lookup(r, name).value == Lookup(reg, name).value.(hasRunner := true)
  {
    match Lookup(reg, name)
    case None => reg
    case Some(t) =>
      var t' := t.(hasRunner := true);
      var r := Put(reg, name, t');
      assert Keyed(reg) ==> Keyed(r) by {
        if Keyed(reg) {
          var i := IndexOf(reg, name).value;
          assert reg[i].1 == t;
          forall j | 0 <= j < |r|
            ensures r[j].0 == r[j].1.name
          {
            if j != i {
              assert r[j] == reg[j];
            }
          }
        }
      }
      r
  }
}
