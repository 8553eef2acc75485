/** The shape every tool exposes to the model: a name, a description and a
    JSON-schema parameter object, offered in the OpenAI function-calling
    format. A tool's `execute` body is not data; it is supplied to the
    registry as a parameter (see ToolRegistry.Execute). */
module ToolBase {
  import opened Wrappers
  import opened OrderedMaps
  import opened Json

  /** `hasRunner` records whether `set_runner` has connected an agent runner
      (only the `task` and `task_output` tools have one). */
  datatype Tool = Tool(name: string, description: string, parameters: Json, hasRunner: bool)

  /** What a tool's `execute` does: return a string or raise with a message. */
  datatype HandlerOutcome = Returned(text: string) | Raised(message: string)

  /** `Tool.to_openai_schema`. */
  function ToOpenAISchema(t: Tool): (r: Json)
    ensures Field(r, "type") == Some(JStr("function"))
    ensures Field(r, "function").Some? && Field(r, "function").value.JObj?
  {
    var top := [("type", JStr("function")),
                ("function", JObj([("name", JStr(t.name)),
                                   ("description", JStr(t.description)),
                                   ("parameters", t.parameters)]))];
    GetHead(top, "type");
    GetTail(top, "function");
    GetHead(top[1..], "function");
    JObj([("type", JStr("function")),
          ("function", JObj([("name", JStr(t.name)),
                             ("description", JStr(t.description)),
                             ("parameters", t.parameters)]))])
  }

  /** Reads a schema back: the name, description and parameters it offers. */
  function SchemaParts(j: Json): Option<(string, string, Json)> {
    if Field(j, "type") != Some(JStr("function")) then None
    else match Field(j, "function")
      case Some(f) =>
        (match (StrField(f, "name"), StrField(f, "description"), Field(f, "parameters"))
         case (Some(n), Some(d), Some(p)) => Some((n, d, p))
         case _ => None)
      case None => None
  }

  /** A schema carries the tool's name, description and parameter object
      unchanged, under a top-level type of "function". */
  lemma SchemaRoundTrip(t: Tool)
    ensures SchemaParts(ToOpenAISchema(t)) == Some((t.name, t.description, t.parameters))
  {
    var f := [("name", JStr(t.name)), ("description", JStr(t.description)), ("parameters", t.parameters)];
    GetHead(f, "name");
    GetTail(f, "description");
    GetHead(f[1..], "description");
    GetTail(f, "parameters");
    GetTail(f[1..], "parameters");
    GetHead(f[2..], "parameters");
    assert f[1..][1..] == f[2..];
  }
}
