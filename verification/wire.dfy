/** The chat wire format of `client.py`: tool calls, messages, and
    `Message.to_dict`. JSON text is outside the model: `dumps` and `loads`
    are parameters. */
module Wire {
  import opened Wrappers
  import opened OrderedMaps
  import opened Json

  datatype ToolCall = ToolCall(id: string, name: string, arguments: Json)

  datatype Role = System | User | Assistant | ToolResult

  function RoleName(r: Role): string {
    match r
    case System => "system"
    case User => "user"
    case Assistant => "assistant"
    case ToolResult => "tool"
  }

  function ParseRole(s: string): (r: Option<Role>)
    ensures r.Some? ==> RoleName(r.value) == s
  {
    if s == "system" then Some(System)
    else if s == "user" then Some(User)
    else if s == "assistant" then Some(Assistant)
    else if s == "tool" then Some(ToolResult)
    else None
  }

  lemma ParseRoleName(r: Role)
    ensures ParseRole(RoleName(r)) == Some(r)
  {
    match r
    case System =>
    case User => assert "user"[0] != "system"[0];
    case Assistant => assert "assistant"[0] != "system"[0] && "assistant"[0] != "user"[0];
    case ToolResult => assert "tool"[0] != "system"[0] && "tool"[0] != "user"[0] && |"tool"| != |"assistant"|;
  }

  /** A `Message`; `None` stands for Python's `None`. */
  datatype Message = Message(
    role: Role,
    content: Option<string>,
    toolCalls: Option<seq<ToolCall>>,
    toolCallId: Option<string>,
    name: Option<string>)

  /** What one call to the model gives: a reply, or the exception it raised. */
  datatype ChatOutcome = Got(reply: Message) | ChatFailed(error: string)

  /** The `role="tool"` message that answers a call: its id, its tool's name
      and the result text. */
  function ResultMessage(call: ToolCall, result: string): Message {
    Message(ToolResult, Some(result), None, Some(call.id), Some(call.name))
  }

  /** The calls a reply asks for; `None` counts as none. */
  function Calls(m: Message): seq<ToolCall> {
    m.toolCalls.GetOr([])
  }

  /** Python truthiness of an optional string. */
  predicate Truthy(s: Option<string>) {
    s.Some? && s.value != ""
  }

  /** One entry of the serialized `tool_calls` list. */
  function CallToDict(tc: ToolCall, dumps: Json -> string): Json {
    JObj([("id", JStr(tc.id)), ("type", JStr("function")),
          ("function", JObj([("name", JStr(tc.name)), ("arguments", JStr(dumps(tc.arguments)))]))])
  }

  /** The serialized `tool_calls` list, in call order. */
  function CallsToDicts(tcs: seq<ToolCall>, dumps: Json -> string): (r: seq<Json>)
    ensures |r| == |tcs|
    ensures forall i :: 0 <= i < |tcs| ==> r[i] == CallToDict(tcs[i], dumps)
  {
    seq(|tcs|, i requires 0 <= i < |tcs| => CallToDict(tcs[i], dumps))
  }

  /** A key/value pair included only when `cond` holds. */
  function OptField(cond: bool, k: string, v: Json): OMap<Json> {
    if cond then [(k, v)] else []
  }

  lemma GetOptField(cond: bool, k: string, v: Json, k': string)
    ensures Get(OptField(cond, k, v), k') == if cond && k == k' then Some(v) else None
  {
    if cond && k == k' {
      GetHead(OptField(cond, k, v), k');
    }
  }

  /** `Message.to_dict`. */
  function ToDict(m: Message, dumps: Json -> string): (r: Json)
    ensures r.JObj?
  {
    JObj([("role", JStr(RoleName(m.role)))]
         + OptField(m.content.Some?, "content", JStr(m.content.GetOr("")))
         + OptField(m.toolCalls.Some? && |m.toolCalls.value| > 0, "tool_calls",
                    JArr(CallsToDicts(m.toolCalls.GetOr([]), dumps)))
         + OptField(Truthy(m.toolCallId), "tool_call_id", JStr(m.toolCallId.GetOr("")))
         + OptField(Truthy(m.name), "name", JStr(m.name.GetOr(""))))
  }

  /** The value `to_dict` stores under `k`: "role" always; "content" when
      content is not None; "tool_calls", "tool_call_id" and "name" only
      when truthy; nothing else. */
  function Expected(m: Message, dumps: Json -> string, k: string): Option<Json> {
    if k == "role" then Some(JStr(RoleName(m.role)))
    else if k == "content" then (if m.content.Some? then Some(JStr(m.content.value)) else None)
    else if k == "tool_calls" then
      (if m.toolCalls.Some? && |m.toolCalls.value| > 0 then Some(JArr(CallsToDicts(m.toolCalls.value, dumps))) else None)
    else if k == "tool_call_id" then (if Truthy(m.toolCallId) then Some(JStr(m.toolCallId.value)) else None)
    else if k == "name" then (if Truthy(m.name) then Some(JStr(m.name.value)) else None)
    else None
  }

  /** Every key of the serialized message holds exactly the expected value. */
  lemma ToDictFields(m: Message, dumps: Json -> string, k: string)
    ensures Field(ToDict(m, dumps), k) == Expected(m, dumps, k)
  {
    var f0: OMap<Json> := [("role", JStr(RoleName(m.role)))];
    var f1 := OptField(m.content.Some?, "content", JStr(m.content.GetOr("")));
    var f2 := OptField(m.toolCalls.Some? && |m.toolCalls.value| > 0, "tool_calls",
                       JArr(CallsToDicts(m.toolCalls.GetOr([]), dumps)));
    var f3 := OptField(Truthy(m.toolCallId), "tool_call_id", JStr(m.toolCallId.GetOr("")));
    var f4 := OptField(Truthy(m.name), "name", JStr(m.name.GetOr("")));
    GetChain(f0, f1, f2, f3, f4, k);
    GetHeadOnly(f0, k);
    GetOptField(m.content.Some?, "content", JStr(m.content.GetOr("")), k);
    GetOptField(m.toolCalls.Some? && |m.toolCalls.value| > 0, "tool_calls",
                JArr(CallsToDicts(m.toolCalls.GetOr([]), dumps)), k);
    GetOptField(Truthy(m.toolCallId), "tool_call_id", JStr(m.toolCallId.GetOr("")), k);
    GetOptField(Truthy(m.name), "name", JStr(m.name.GetOr("")), k);
  }

  lemma GetHeadOnly(f: OMap<Json>, k: string)
    requires |f| == 1
    ensures Get(f, k) == if f[0].0 == k then Some(f[0].1) else None
  {
    if f[0].0 == k {
      GetHead(f, k);
    } else {
      GetTail(f, k);
      assert f[1..] == [];
    }
  }

  function FirstOf<V>(a: Option<V>, b: Option<V>): Option<V> {
    if a.Some? then a else b
  }

  /** A lookup in five dictionaries laid end to end answers from the first
      that holds the key. */
  lemma GetChain(f0: OMap<Json>, f1: OMap<Json>, f2: OMap<Json>, f3: OMap<Json>, f4: OMap<Json>, k: string)
    ensures Get(f0 + f1 + f2 + f3 + f4, k)
            == FirstOf(Get(f0, k), FirstOf(Get(f1, k), FirstOf(Get(f2, k), FirstOf(Get(f3, k), Get(f4, k)))))
  {
    GetConcat(f0 + f1 + f2 + f3, f4, k);
    GetConcat(f0 + f1 + f2, f3, k);
    GetConcat(f0 + f1, f2, k);
    GetConcat(f0, f1, k);
  }

  /** What survives serialization: empty tool-call lists and empty ids and
      names are dropped, exactly as `to_dict` drops falsy values. */
  function Normalize(m: Message): Message {
    m.(toolCalls := if m.toolCalls.Some? && |m.toolCalls.value| == 0 then None else m.toolCalls,
       toolCallId := if Truthy(m.toolCallId) then m.toolCallId else None,
       name := if Truthy(m.name) then m.name else None)
  }

  function CallFromDict(j: Json, loads: string -> Option<Json>): Option<ToolCall> {
    match (StrField(j, "id"), Field(j, "function"))
    case (Some(id), Some(f)) =>
      (match (StrField(f, "name"), StrField(f, "arguments"))
       case (Some(n), Some(a)) =>
         (match loads(a)
          case Some(args) => Some(ToolCall(id, n, args))
          case None => None)
       case _ => None)
    case _ => None
  }

  function CallsFromDicts(items: seq<Json>, loads: string -> Option<Json>): Option<seq<ToolCall>> {
    if |items| == 0 then Some([])
    else match (CallFromDict(items[0], loads), CallsFromDicts(items[1..], loads))
      case (Some(c), Some(cs)) => Some([c] + cs)
      case _ => None
  }

  /** The `tool_calls` read back from a serialized message. */
  function CallsBack(j: Json, loads: string -> Option<Json>): Option<seq<ToolCall>> {
    match Field(j, "tool_calls")
    case Some(JArr(items)) => CallsFromDicts(items, loads)
    case _ => None
  }

  /** Reads a serialized message back. */
  function FromDict(j: Json, loads: string -> Option<Json>): Option<Message> {
    match StrField(j, "role")
    case None => None
    case Some(rs) =>
      match ParseRole(rs)
      case None => None
      case Some(role) =>
        Some(Message(role, StrField(j, "content"), CallsBack(j, loads), StrField(j, "tool_call_id"), StrField(j, "name")))
  }

  lemma CallRoundTrip(tc: ToolCall, dumps: Json -> string, loads: string -> Option<Json>)
    requires loads(dumps(tc.arguments)) == Some(tc.arguments)
    ensures CallFromDict(CallToDict(tc, dumps), loads) == Some(tc)
  {
    var f := [("name", JStr(tc.name)), ("arguments", JStr(dumps(tc.arguments)))];
    var top := [("id", JStr(tc.id)), ("type", JStr("function")), ("function", JObj(f))];
    GetHead(top, "id");
    GetTail(top, "function");
    GetTail(top[1..], "function");
    GetHead(top[2..], "function");
    assert top[1..][1..] == top[2..];
    GetHead(f, "name");
    GetTail(f, "arguments");
    GetHead(f[1..], "arguments");
  }

  lemma {:induction false} CallsRoundTrip(tcs: seq<ToolCall>, dumps: Json -> string, loads: string -> Option<Json>)
    requires forall i :: 0 <= i < |tcs| ==> loads(dumps(tcs[i].arguments)) == Some(tcs[i].arguments)
    ensures CallsFromDicts(CallsToDicts(tcs, dumps), loads) == Some(tcs)
    decreases |tcs|
  {
    var items := CallsToDicts(tcs, dumps);
    if |tcs| > 0 {
      CallRoundTrip(tcs[0], dumps, loads);
      CallsRoundTrip(tcs[1..], dumps, loads);
      assert items[1..] == CallsToDicts(tcs[1..], dumps);
      assert tcs == [tcs[0]] + tcs[1..];
    }
  }

  lemma CallsBackOfToDict(m: Message, dumps: Json -> string, loads: string -> Option<Json>)
    requires m.toolCalls.Some? ==>
               forall i :: 0 <= i < |m.toolCalls.value| ==>
                 loads(dumps(m.toolCalls.value[i].arguments)) == Some(m.toolCalls.value[i].arguments)
    ensures CallsBack(ToDict(m, dumps), loads) == Normalize(m).toolCalls
  {
    ToDictFields(m, dumps, "tool_calls");
    if m.toolCalls.Some? && |m.toolCalls.value| > 0 {
      CallsRoundTrip(m.toolCalls.value, dumps, loads);
    }
  }

  lemma StrFieldsOfToDict(m: Message, dumps: Json -> string)
    ensures StrField(ToDict(m, dumps), "role") == Some(RoleName(m.role))
    ensures StrField(ToDict(m, dumps), "content") == m.content
    ensures StrField(ToDict(m, dumps), "tool_call_id") == Normalize(m).toolCallId
    ensures StrField(ToDict(m, dumps), "name") == Normalize(m).name
  {
    ToDictFields(m, dumps, "role");
    ToDictFields(m, dumps, "content");
    ToDictFields(m, dumps, "tool_call_id");
    ToDictFields(m, dumps, "name");
  }

  /** Serializing and reading back gives the message up to the falsy values
      `to_dict` omits, provided `loads` inverts `dumps` on the arguments. */
  lemma DictRoundTrip(m: Message, dumps: Json -> string, loads: string -> Option<Json>)
    requires m.toolCalls.Some? ==>
               forall i :: 0 <= i < |m.toolCalls.value| ==>
                 loads(dumps(m.toolCalls.value[i].arguments)) == Some(m.toolCalls.value[i].arguments)
    ensures FromDict(ToDict(m, dumps), loads) == Some(Normalize(m))
  {
    StrFieldsOfToDict(m, dumps);
    CallsBackOfToDict(m, dumps, loads);
    ParseRoleName(m.role);
  }
}
