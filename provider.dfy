/** The message model shared by the agent loop, the tool dispatcher and the
    protocol server: roles, messages, tool calls, tool definitions, and the
    request/response pair of one call to the language-model backend.
    Serialisation follows the serde attributes of the Rust types: lower-case
    role names, `None` optional fields left out, and the `call_type` /
    `tool_type` fields written under the key "type". Each encoder has a
    decoder beside it (serde's derived `Deserialize`) and a round-trip lemma. */
module Provider {
  import opened Wrappers
  import opened Json

  datatype Role = System | User | Assistant | Tool

  /** A function the model asked to call: its name and its arguments as raw
      JSON text. */
  datatype FunctionCall = FunctionCall(name: string, arguments: string)

  /** One tool invocation requested by the backend. `func` is the Rust field
      `function` (a keyword in Dafny); its key on the wire stays "function". */
  datatype ToolCall = ToolCall(id: string, call_type: string, func: FunctionCall)

  datatype FunctionDefinition = FunctionDefinition(name: string, description: string, parameters: Value)

  /** One catalog entry advertised to the backend. */
  datatype ToolDefinition = ToolDefinition(tool_type: string, func: FunctionDefinition)

  datatype Message = Message(
    role: Role,
    content: string,
    tool_calls: Option<seq<ToolCall>>,
    tool_call_id: Option<string>)

  /** What one backend call returns. */
  datatype ChatResponse = ChatResponse(content: string, tool_calls: Option<seq<ToolCall>>, finish_reason: string)

  /** The arguments of one `LLMProvider::chat` call. */
  datatype ChatRequest = ChatRequest(messages: seq<Message>, tools: Option<seq<ToolDefinition>>)

  /** The backend as an oracle: the answer to the call with the given index
      within one agent turn, made with the given request. Any sequence of
      answers, however the real backend chooses them, is one such function. */
  type Backend = (nat, ChatRequest) -> Result<ChatResponse, string>

  // ---------------------------------------------------------------------
  // Constructors (`Message::system`, `user`, `assistant`, `tool`)

  function SystemMessage(content: string): (m: Message)
    ensures m.role == System && m.content == content
    ensures m.tool_calls == None && m.tool_call_id == None
  {
    Message(System, content, None, None)
  }

  function UserMessage(content: string): (m: Message)
    ensures m.role == User && m.content == content
    ensures m.tool_calls == None && m.tool_call_id == None
  {
    Message(User, content, None, None)
  }

  function AssistantMessage(content: string): (m: Message)
    ensures m.role == Assistant && m.content == content
    ensures m.tool_calls == None && m.tool_call_id == None
  {
    Message(Assistant, content, None, None)
  }

  function ToolMessage(content: string, tool_call_id: string): (m: Message)
    ensures m.role == Tool && m.content == content
    ensures m.tool_calls == None && m.tool_call_id == Some(tool_call_id)
  {
    Message(Tool, content, None, Some(tool_call_id))
  }

  // ---------------------------------------------------------------------
  // Serialisation

  /** `#[serde(rename_all = "lowercase")]` on `Role`. */
  function RoleName(r: Role): string {
    match r
    case System => "system"
    case User => "user"
    case Assistant => "assistant"
    case Tool => "tool"
  }

  /** Deserialising a role: exactly the four lower-case names are accepted,
      and each names the role it was written from. */
  function RoleFromName(s: string): (r: Option<Role>)
    ensures r.Some? <==> s in {"system", "user", "assistant", "tool"}
    ensures r.Some? ==> RoleName(r.value) == s
  {
    if s == "system" then Some(System)
    else if s == "user" then Some(User)
    else if s == "assistant" then Some(Assistant)
    else if s == "tool" then Some(Tool)
    else None
  }

  lemma RoleNamesDistinct(a: Role, b: Role)
    ensures RoleName(a) == RoleName(b) <==> a == b
  {
    var ra := RoleFromName(RoleName(a));
    assert ra == Some(a);
  }

  function FunctionCallToJson(f: FunctionCall): Value {
    Object(map["name" := Str(f.name), "arguments" := Str(f.arguments)])
  }

  function ToolCallToJson(t: ToolCall): Value {
    Object(map["id" := Str(t.id), "type" := Str(t.call_type), "function" := FunctionCallToJson(t.func)])
  }

  function ToolCallsToJson(ts: seq<ToolCall>): (r: seq<Value>)
    ensures |r| == |ts|
    ensures forall i :: 0 <= i < |ts| ==> r[i] == ToolCallToJson(ts[i])
  {
    if ts == [] then [] else [ToolCallToJson(ts[0])] + ToolCallsToJson(ts[1..])
  }

  /** `Message` as serde writes it: the two optional fields appear exactly
      when they are set. */
  function MessageToJson(m: Message): (r: Value)
    ensures r.Object?
    ensures r.fields.Keys == {"role", "content"}
      + (if m.tool_calls.Some? then {"tool_calls"} else {})
      + (if m.tool_call_id.Some? then {"tool_call_id"} else {})
  {
    var base := map["role" := Str(RoleName(m.role)), "content" := Str(m.content)];
    var withCalls := if m.tool_calls.Some? then base["tool_calls" := Array(ToolCallsToJson(m.tool_calls.value))] else base;
    var all := if m.tool_call_id.Some? then withCalls["tool_call_id" := Str(m.tool_call_id.value)] else withCalls;
    Object(all)
  }

  /** A `ToolDefinition` as serde writes it: `tool_type` under "type". */
  function ToolDefinitionToJson(d: ToolDefinition): (r: Value)
    ensures r.Object? && r.fields.Keys == {"type", "function"}
    ensures r.fields["type"] == Str(d.tool_type)
  {
    Object(map[
      "type" := Str(d.tool_type),
      "function" := Object(map[
        "name" := Str(d.func.name),
        "description" := Str(d.func.description),
        "parameters" := d.func.parameters])])
  }

  // ---------------------------------------------------------------------
  // Deserialisation (serde's derived `Deserialize`: every non-optional field
  // must be present with the right kind, unknown keys are ignored, an
  // optional field that is missing or `null` is `None`)

  function StringField(v: Value, key: string): Option<string> {
    if v.Object? && key in v.fields && v.fields[key].Str? then Some(v.fields[key].s) else None
  }

  function FunctionCallFromJson(v: Value): Option<FunctionCall> {
    var name := StringField(v, "name");
    var arguments := StringField(v, "arguments");
    if name.Some? && arguments.Some? then Some(FunctionCall(name.value, arguments.value)) else None
  }

  function ToolCallFromJson(v: Value): Option<ToolCall> {
    var id := StringField(v, "id");
    var ty := StringField(v, "type");
    var f := if v.Object? && "function" in v.fields then FunctionCallFromJson(v.fields["function"]) else None;
    if id.Some? && ty.Some? && f.Some? then Some(ToolCall(id.value, ty.value, f.value)) else None
  }

  function ToolCallsFromJson(items: seq<Value>): (r: Option<seq<ToolCall>>)
    ensures r.Some? ==> |r.value| == |items|
  {
    if items == [] then Some([])
    else
      var head := ToolCallFromJson(items[0]);
      var tail := ToolCallsFromJson(items[1..]);
      if head.Some? && tail.Some? then Some([head.value] + tail.value) else None
  }

  /** `Option<Vec<ToolCall>>`: absent or `null` is `None`; anything else must
      decode. The outer `Option` says whether decoding succeeded. */
  function OptionalToolCalls(v: Value): Option<Option<seq<ToolCall>>> {
    if !(v.Object? && "tool_calls" in v.fields) || v.fields["tool_calls"].Null? then Some(None)
    else if v.fields["tool_calls"].Array? then
      var calls := ToolCallsFromJson(v.fields["tool_calls"].items);
      if calls.Some? then Some(Some(calls.value)) else None
    else None
  }

  function OptionalToolCallId(v: Value): Option<Option<string>> {
    if !(v.Object? && "tool_call_id" in v.fields) || v.fields["tool_call_id"].Null? then Some(None)
    else if v.fields["tool_call_id"].Str? then Some(Some(v.fields["tool_call_id"].s))
    else None
  }

  function MessageFromJson(v: Value): Option<Message> {
    var roleName := StringField(v, "role");
    var role := if roleName.Some? then RoleFromName(roleName.value) else None;
    var content := StringField(v, "content");
    var calls := OptionalToolCalls(v);
    var id := OptionalToolCallId(v);
    if role.Some? && content.Some? && calls.Some? && id.Some? then
      Some(Message(role.value, content.value, calls.value, id.value))
    else None
  }

  function ToolDefinitionFromJson(v: Value): Option<ToolDefinition> {
    var ty := StringField(v, "type");
    var f := if v.Object? && "function" in v.fields then v.fields["function"] else Null;
    var name := StringField(f, "name");
    var description := StringField(f, "description");
    if ty.Some? && name.Some? && description.Some? && f.Object? && "parameters" in f.fields then
      Some(ToolDefinition(ty.value, FunctionDefinition(name.value, description.value, f.fields["parameters"])))
    else None
  }

  // ---------------------------------------------------------------------
  // Round trips

  lemma {:induction false} ToolCallsRoundTrip(ts: seq<ToolCall>)
    ensures ToolCallsFromJson(ToolCallsToJson(ts)) == Some(ts)
  {
    if ts != [] {
      var items := ToolCallsToJson(ts);
      assert items[1..] == ToolCallsToJson(ts[1..]);
      ToolCallsRoundTrip(ts[1..]);
      assert ToolCallFromJson(items[0]) == Some(ts[0]);
      assert [ts[0]] + ts[1..] == ts;
    }
  }

  /** Every message reads back as itself after serialisation. */
  lemma MessageRoundTrip(m: Message)
    ensures MessageFromJson(MessageToJson(m)) == Some(m)
  {
    var v := MessageToJson(m);
    assert StringField(v, "role") == Some(RoleName(m.role));
    assert RoleFromName(RoleName(m.role)) == Some(m.role) by {
      match m.role
      case System =>
      case User =>
      case Assistant =>
      case Tool =>
    }
    if m.tool_calls.Some? {
      ToolCallsRoundTrip(m.tool_calls.value);
      assert v.fields["tool_calls"] == Array(ToolCallsToJson(m.tool_calls.value));
    }
  }

  /** Every tool definition reads back as itself after serialisation. */
  lemma ToolDefinitionRoundTrip(d: ToolDefinition)
    ensures ToolDefinitionFromJson(ToolDefinitionToJson(d)) == Some(d)
  {
  }
}
