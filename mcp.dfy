/** The protocol server: `handle_request`, which answers one Model Context
    Protocol request (revision 2024-11-05, the "Tools" part) with a JSON
    value, and the request loop of `run`. Requests and responses are JSON
    values; reading a line and parsing it is an input of the loop. The
    server answers with the bare result or error object: it adds no
    `jsonrpc` or `id` field. */
module Mcp {
  import opened Wrappers
  import opened Json
  import opened Provider
  import opened Tools

  const ProtocolVersion := "2024-11-05"
  const ServerName := "aishell"
  const ServerVersion := "0.1.0"
  /** "Method not found", section 5.1 of the JSON-RPC 2.0 specification. */
  const MethodNotFound: int := -32601

  /** `request["method"].as_str().unwrap_or("")`. */
  function MethodOf(request: Value): string {
    AsStr(Get(request, "method")).GetOr("")
  }

  // ---------------------------------------------------------------------
  // The four answers

  /** The answer to `initialize`, whatever the request's parameters. */
  function InitializeResult(): Value {
    Object(map[
      "protocolVersion" := Str(ProtocolVersion),
      "capabilities" := Object(map["tools" := Object(map[])]),
      "serverInfo" := Object(map["name" := Str(ServerName), "version" := Str(ServerVersion)])])
  }

  /** How `tools/list` advertises one catalog entry. */
  function ToolEntry(d: ToolDefinition): Value {
    Object(map["name" := Str(d.func.name), "description" := Str(d.func.description), "inputSchema" := d.func.parameters])
  }

  /** The advertised entries of a catalog, one per definition, in order. */
  function ToolEntries(defs: seq<ToolDefinition>): (r: seq<Value>)
    ensures |r| == |defs|
    ensures forall i :: 0 <= i < |defs| ==> r[i] == ToolEntry(defs[i])
  {
    if defs == [] then [] else [ToolEntry(defs[0])] + ToolEntries(defs[1..])
  }

  /** The answer to `tools/list` for a catalog. */
  function ListResult(defs: seq<ToolDefinition>): Value {
    Object(map["tools" := Array(ToolEntries(defs))])
  }

  /** A text-only content list. */
  function TextContent(text: string): Value {
    Array([Object(map["type" := Str("text"), "text" := Str(text)])])
  }

  /** The answer to `tools/call` for the tool's outcome: the output as text,
      or the error as text with the `isError` flag. */
  function CallResult(outcome: Result<string, ToolError>): Value {
    match outcome
    case Success(output) => Object(map["content" := TextContent(output)])
    case Failure(e) => Object(map["content" := TextContent("Error: " + ErrorText(e)), "isError" := Bool(true)])
  }

  /** The answer to any other method. */
  function NotFound(name: string): Value {
    Object(map["error" := Object(map["code" := Number(MethodNotFound), "message" := Str("Method not found: " + name)])])
  }

  /** `request["params"]["name"].as_str().unwrap_or("")`. */
  function CallName(request: Value): string {
    AsStr(Get(Get(request, "params"), "name")).GetOr("")
  }

  /** The arguments `execute_tool` receives: `request["params"]["arguments"]`
      printed and parsed again, which gives back the same value (`null` when
      there are none). */
  function CallArguments(request: Value): Parsed {
    ParseOk(Get(Get(request, "params"), "arguments"))
  }

  /** `handle_request`: dispatch on the method name. */
  function HandleRequest(request: Value, ex: Executor): Value {
    var name := MethodOf(request);
    if name == "initialize" then InitializeResult()
    else if name == "tools/list" then ListResult(ToolDefinitions())
    else if name == "tools/call" then CallResult(ExecuteTool(CallName(request), CallArguments(request), ex))
    else NotFound(name)
  }

  // ---------------------------------------------------------------------
  // Properties of the answers

  /** `initialize` answers the fixed server description. */
  lemma InitializeAnswer(request: Value, ex: Executor)
    requires MethodOf(request) == "initialize"
    ensures var r := HandleRequest(request, ex);
      && Keys(r) == {"protocolVersion", "capabilities", "serverInfo"}
      && Get(r, "protocolVersion") == Str("2024-11-05")
      && Get(r, "capabilities") == Object(map["tools" := Object(map[])])
      && Get(Get(r, "serverInfo"), "name") == Str("aishell")
      && Get(Get(r, "serverInfo"), "version") == Str("0.1.0")
      && Keys(Get(r, "serverInfo")) == {"name", "version"}
  {
  }

  /** `tools/list` advertises the catalog entry by entry, in order. */
  lemma ListAnswerMirrors(defs: seq<ToolDefinition>)
    ensures var r := ListResult(defs);
      && Keys(r) == {"tools"}
      && Get(r, "tools").Array?
      && var items := Get(r, "tools").items;
         && |items| == |defs|
         && forall i :: 0 <= i < |defs| ==>
              && Keys(items[i]) == {"name", "description", "inputSchema"}
              && Get(items[i], "name") == Str(defs[i].func.name)
              && Get(items[i], "description") == Str(defs[i].func.description)
              && Get(items[i], "inputSchema") == defs[i].func.parameters
  {
  }

  lemma ListAnswer(request: Value, ex: Executor)
    requires MethodOf(request) == "tools/list"
    ensures HandleRequest(request, ex) == ListResult(ToolDefinitions())
    ensures |Get(HandleRequest(request, ex), "tools").items| == 4
  {
    ListAnswerMirrors(ToolDefinitions());
  }

  /** A tool call is answered with one text item; the `isError` flag is
      present exactly when the tool failed, and the answer is never a
      protocol error. */
  lemma CallAnswerShape(outcome: Result<string, ToolError>)
    ensures var r := CallResult(outcome);
      && Keys(r) == (if outcome.Success? then {"content"} else {"content", "isError"})
      && ("isError" in Keys(r) <==> outcome.Failure?)
      && (outcome.Failure? ==> Get(r, "isError") == Bool(true))
      && "error" !in Keys(r)
      && Get(r, "content") == TextContent(if outcome.Success? then outcome.value else "Error: " + ErrorText(outcome.error))
      && Get(Get(r, "content").items[0], "text").s == (if outcome.Success? then outcome.value else "Error: " + ErrorText(outcome.error))
  {
  }

  lemma CallAnswer(request: Value, ex: Executor)
    requires MethodOf(request) == "tools/call"
    ensures HandleRequest(request, ex) == CallResult(ExecuteTool(CallName(request), CallArguments(request), ex))
  {
  }

  /** `tools/call` of `read` on a file the executor cannot read answers
      with the executor's error as text, flagged `isError`, and never with a
      protocol error. */
  lemma MissingFileCall(request: Value, ex: Executor, path: string, m: string)
    requires MethodOf(request) == "tools/call" && CallName(request) == "read"
    requires Get(Get(Get(request, "params"), "arguments"), "path") == Str(path)
    requires ex.read_file(path) == Failure(m)
    ensures var r := HandleRequest(request, ex);
      && Keys(r) == {"content", "isError"}
      && Get(r, "isError") == Bool(true)
      && Get(r, "content") == TextContent("Error: " + m)
  {
    CallAnswer(request, ex);
    ReadFailurePassesThrough(Get(Get(request, "params"), "arguments"), ex, path, m);
    CallAnswerShape(Failure(ExecutorFailed(m)));
  }

  /** A call without a string `params.name` asks for the tool named "" and
      is answered as an unknown tool. */
  lemma NamelessCallIsUnknownTool(request: Value, ex: Executor)
    requires MethodOf(request) == "tools/call" && !Get(Get(request, "params"), "name").Str?
    ensures HandleRequest(request, ex) == CallResult(Failure(UnknownTool("")))
  {
    assert CallName(request) == "";
    assert !IsToolName("");
  }

  /** Every other method, a missing one included, is answered with the
      "Method not found" error naming it; and only those are. */
  lemma OtherMethodsNotFound(request: Value, ex: Executor)
    ensures var m := MethodOf(request);
      m !in {"initialize", "tools/list", "tools/call"} <==> HandleRequest(request, ex) == NotFound(m)
    ensures !Get(request, "method").Str? ==> HandleRequest(request, ex) == NotFound("")
  {
    var m := MethodOf(request);
    if m == "initialize" {
      assert "error" !in Keys(InitializeResult());
    } else if m == "tools/list" {
      assert "error" !in Keys(ListResult(ToolDefinitions()));
    } else if m == "tools/call" {
      CallAnswerShape(ExecuteTool(CallName(request), CallArguments(request), ex));
    }
  }

  lemma NotFoundShape(name: string)
    ensures var r := NotFound(name);
      && Keys(r) == {"error"}
      && Keys(Get(r, "error")) == {"code", "message"}
      && Get(Get(r, "error"), "code") == Number(-32601)
      && Get(Get(r, "error"), "message") == Str("Method not found: " + name)
  {
  }

  // ---------------------------------------------------------------------
  // The request loop

  /** How reading stopped: a zero-byte read, or a read error. */
  datatype InputEnd = EndOfInput | ReadError(message: string)

  /** The requests among the lines read, in order: a line that does not
      parse is dropped. */
  function Requests(lines: seq<Parsed>): (r: seq<Value>)
    ensures |r| <= |lines|
  {
    if lines == [] then []
    else
      var n := |lines| - 1;
      Requests(lines[..n]) + (if lines[n].ParseOk? then [lines[n].value] else [])
  }

  /** The answers to `requests`, the `k`-th handled with executor `env(k)`. */
  function Responses(requests: seq<Value>, env: nat -> Executor): (r: seq<Value>)
    ensures |r| == |requests|
    ensures forall k :: 0 <= k < |requests| ==> r[k] == HandleRequest(requests[k], env(k))
  {
    seq(|requests|, k requires 0 <= k < |requests| => HandleRequest(requests[k], env(k)))
  }

  lemma ResponsesSnoc(requests: seq<Value>, request: Value, env: nat -> Executor)
    ensures Responses(requests + [request], env) == Responses(requests, env) + [HandleRequest(request, env(|requests|))]
  {
  }

  lemma {:induction false} RequestsAppend(a: seq<Parsed>, b: seq<Parsed>)
    ensures Requests(a + b) == Requests(a) + Requests(b)
    decreases |b|
  {
    if b == [] {
      assert a + b == a;
    } else {
      var n := |b| - 1;
      assert (a + b)[..|a + b| - 1] == a + b[..n];
      RequestsAppend(a, b[..n]);
    }
  }

  /** A line that does not parse gets no answer and does not stop the loop:
      the lines after it are answered as if it had not been there. */
  lemma MalformedLineIgnored(before: seq<Parsed>, message: string, after: seq<Parsed>)
    ensures Requests(before + [ParseErr(message)] + after) == Requests(before + after)
  {
    RequestsAppend(before + [ParseErr(message)], after);
    RequestsAppend(before, [ParseErr(message)]);
    RequestsAppend(before, after);
    assert Requests([ParseErr(message)]) == [] by {
      assert [ParseErr(message)][..0] == [];
    }
  }

  /** A line that parses gets exactly one answer, in its place. */
  lemma ParsedLineAnswered(before: seq<Parsed>, request: Value, after: seq<Parsed>)
    ensures Requests(before + [ParseOk(request)] + after) == Requests(before) + [request] + Requests(after)
  {
    RequestsAppend(before + [ParseOk(request)], after);
    RequestsAppend(before, [ParseOk(request)]);
    assert Requests([ParseOk(request)]) == [request] by {
      assert [ParseOk(request)][..0] == [];
    }
  }

  /** The number of answers is the number of lines that parse. */
  function ParsedCount(lines: seq<Parsed>): nat {
    if lines == [] then 0 else ParsedCount(lines[..|lines| - 1]) + (if lines[|lines| - 1].ParseOk? then 1 else 0)
  }

  lemma {:induction false} OneAnswerPerParsedLine(lines: seq<Parsed>, env: nat -> Executor)
    ensures |Responses(Requests(lines), env)| == ParsedCount(lines)
  {
    if lines != [] {
      OneAnswerPerParsedLine(lines[..|lines| - 1], env);
    }
  }

  /** `run`: read the lines one by one, answer each one that parses and
      write the answer, skip the others, and stop at the end of input; a
      read error ends the loop with that error. The `k`-th request is
      handled with executor `env(k)`. */
  method Serve(lines: seq<Parsed>, end: InputEnd, env: nat -> Executor)
    returns (written: seq<Value>, status: Result<(), string>)
    ensures written == Responses(Requests(lines), env)
    ensures status == (if end.EndOfInput? then Success(()) else Failure(end.message))
  {
    written := [];
    var i := 0;
    while i < |lines|
      invariant 0 <= i <= |lines|
      invariant written == Responses(Requests(lines[..i]), env)
    {
      ghost var done := Requests(lines[..i]);
      assert lines[..i + 1][..i] == lines[..i];
      match lines[i] {
        case ParseErr(_) =>
          assert Requests(lines[..i + 1]) == done;
        case ParseOk(request) =>
          var response := HandleRequest(request, env(|written|));
          ResponsesSnoc(done, request, env);
          written := written + [response];
          assert Requests(lines[..i + 1]) == done + [request];
      }
      i := i + 1;
    }
    assert lines[..i] == lines;
    match end {
      case EndOfInput => status := Success(());
      case ReadError(m) => status := Failure(m);
    }
  }
}
