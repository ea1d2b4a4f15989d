/** The tool catalog and the dispatcher (`get_tool_definitions`,
    `execute_tool`). The executor that runs commands and touches files is an
    oracle: a value of type `Executor` answers each kind of request.
    `ExecuteTool` is split in two: `Plan` decodes the
    tool name and arguments into one executor request (or an error, in which
    case the executor is never asked), and `Perform` asks the executor and
    renders its answer as text. */
module Tools {
  import opened Wrappers
  import opened Json
  import opened Text
  import opened Provider

  /** `i32`, the type of a process exit code. */
  type Int32 = x: int | -0x8000_0000 <= x < 0x8000_0000

  datatype ExecutionResult = ExecutionResult(stdout: string, stderr: string, exit_code: Int32, success: bool)

  /** The executor's four capabilities. An `Err` carries the text the error
      displays as. */
  datatype Executor = Executor(
    execute: string -> Result<ExecutionResult, string>,
    read_file: string -> Result<string, string>,
    write_file: (string, string) -> Result<(), string>,
    list_files: Option<string> -> Result<seq<string>, string>)

  /** The ways `execute_tool` fails. */
  datatype ToolError =
    | UnknownTool(name: string)
    | InvalidPayload(message: string)   // the JSON parser's own message
    | MissingArgument(field: string)
    | ExecutorFailed(message: string)

  /** What the error displays as (`anyhow` shows the outermost context). */
  function ErrorText(e: ToolError): string {
    match e
    case UnknownTool(name) => "Unknown tool: " + name
    case InvalidPayload(message) => message
    case MissingArgument(field) => "Missing '" + field + "' argument"
    case ExecutorFailed(message) => message
  }

  /** The one executor call a well-formed tool invocation makes. */
  datatype ExecutorRequest =
    | RunCommand(command: string)
    | ReadFile(path: string)
    | WriteFile(path: string, content: string)
    | ListFiles(pattern: Option<string>)

  // ---------------------------------------------------------------------
  // The catalog

  function StringProperty(description: string): Value {
    Object(map["type" := Str("string"), "description" := Str(description)])
  }

  function StringArray(ss: seq<string>): (r: Value)
    ensures r.Array? && |r.items| == |ss|
    ensures forall i :: 0 <= i < |ss| ==> r.items[i] == Str(ss[i])
  {
    if ss == [] then Array([]) else Array([Str(ss[0])] + StringArray(ss[1..]).items)
  }

  /** A JSON Schema object with the given properties and required fields. */
  function ObjectSchema(properties: map<string, Value>, required: seq<string>): Value {
    Object(map["type" := Str("object"), "properties" := Object(properties), "required" := StringArray(required)])
  }

  /** The strings of a JSON array, in order; other items are passed over. */
  function Strings(items: seq<Value>): seq<string> {
    if items == [] then []
    else (if items[0].Str? then [items[0].s] else []) + Strings(items[1..])
  }

  /** The "required" list of a parameter schema. */
  function RequiredFields(schema: Value): seq<string> {
    var req := Get(schema, "required");
    if req.Array? then Strings(req.items) else []
  }

  lemma {:induction false} StringsOfStringArray(ss: seq<string>)
    ensures Strings(StringArray(ss).items) == ss
  {
    if ss != [] {
      assert StringArray(ss).items[1..] == StringArray(ss[1..]).items;
      StringsOfStringArray(ss[1..]);
    }
  }

  lemma RequiredFieldsOfSchema(properties: map<string, Value>, required: seq<string>)
    ensures RequiredFields(ObjectSchema(properties, required)) == required
  {
    StringsOfStringArray(required);
  }

  // The catalog's descriptions, as the backend reads them.
  const CommandDescription := "The bash command to execute"
  const ReadPathDescription := "The path to the file to read"
  const WritePathDescription := "The path to the file to write"
  const ContentDescription := "The content to write to the file"
  const PatternDescription := "Optional glob pattern to filter files (e.g., '*.rs')"
  const BashDescription := "Execute a bash command and return the output. Use this for running shell commands, git operations, package management, etc."
  const ReadDescription := "Read the contents of a file. Returns the file content as a string."
  const WriteDescription := "Write content to a file. Creates the file if it doesn't exist, overwrites if it does."
  const ListDescription := "List files in the current directory. Optionally filter by pattern."

  /** What every catalog entry satisfies: a function whose parameters are
      described by an object schema. */
  predicate WellFormedDefinition(d: ToolDefinition) {
    && d.tool_type == "function"
    && Get(d.func.parameters, "type") == Str("object")
  }

  function BashDefinition(): (d: ToolDefinition)
    ensures d.func.name == "bash" && WellFormedDefinition(d)
    ensures RequiredFields(d.func.parameters) == ["command"]
  {
    var properties := map["command" := StringProperty(CommandDescription)];
    RequiredFieldsOfSchema(properties, ["command"]);
    ToolDefinition("function", FunctionDefinition(
      "bash",
      BashDescription,
      ObjectSchema(properties, ["command"])))
  }

  function ReadDefinition(): (d: ToolDefinition)
    ensures d.func.name == "read" && WellFormedDefinition(d)
    ensures RequiredFields(d.func.parameters) == ["path"]
  {
    var properties := map["path" := StringProperty(ReadPathDescription)];
    RequiredFieldsOfSchema(properties, ["path"]);
    ToolDefinition("function", FunctionDefinition(
      "read",
      ReadDescription,
      ObjectSchema(properties, ["path"])))
  }

  function WriteDefinition(): (d: ToolDefinition)
    ensures d.func.name == "write" && WellFormedDefinition(d)
    ensures RequiredFields(d.func.parameters) == ["path", "content"]
  {
    var properties := map[
      "path" := StringProperty(WritePathDescription),
      "content" := StringProperty(ContentDescription)];
    RequiredFieldsOfSchema(properties, ["path", "content"]);
    ToolDefinition("function", FunctionDefinition(
      "write",
      WriteDescription,
      ObjectSchema(properties, ["path", "content"])))
  }

  function ListDefinition(): (d: ToolDefinition)
    ensures d.func.name == "list" && WellFormedDefinition(d)
    ensures RequiredFields(d.func.parameters) == []
  {
    var properties := map["pattern" := StringProperty(PatternDescription)];
    RequiredFieldsOfSchema(properties, []);
    ToolDefinition("function", FunctionDefinition(
      "list",
      ListDescription,
      ObjectSchema(properties, [])))
  }

  /** `get_tool_definitions`: four functions, `bash`, `read`, `write` and
      `list` in that order, each with an object schema and the required
      fields the dispatcher checks. */
  function ToolDefinitions(): (r: seq<ToolDefinition>)
    ensures |r| == 4
    ensures r[0].func.name == "bash" && r[1].func.name == "read"
      && r[2].func.name == "write" && r[3].func.name == "list"
    ensures WellFormedDefinition(r[0]) && WellFormedDefinition(r[1])
      && WellFormedDefinition(r[2]) && WellFormedDefinition(r[3])
    ensures RequiredFields(r[0].func.parameters) == ["command"]
    ensures RequiredFields(r[1].func.parameters) == ["path"]
    ensures RequiredFields(r[2].func.parameters) == ["path", "content"]
    ensures RequiredFields(r[3].func.parameters) == []
    ensures r[0].func.description == BashDescription && r[1].func.description == ReadDescription
      && r[2].func.description == WriteDescription && r[3].func.description == ListDescription
  {
    var bash, read, write, list := BashDefinition(), ReadDefinition(), WriteDefinition(), ListDefinition();
    [bash, read, write, list]
  }

  /** The names the dispatcher knows: exactly the catalog's names. */
  predicate IsToolName(name: string) {
    name == "bash" || name == "read" || name == "write" || name == "list"
  }

  /** The names of a list of definitions, in order. */
  function Names(defs: seq<ToolDefinition>): (names: seq<string>)
    ensures |names| == |defs|
    ensures forall i :: 0 <= i < |defs| ==> names[i] == defs[i].func.name
  {
    if defs == [] then [] else [defs[0].func.name] + Names(defs[1..])
  }

  /** The catalog's names, in order. */
  lemma CatalogNames()
    ensures Names(ToolDefinitions()) == ["bash", "read", "write", "list"]
  {
    var names := Names(ToolDefinitions());
    assert names[0] == "bash" && names[1] == "read" && names[2] == "write" && names[3] == "list";
  }

  /** The dispatcher knows exactly the names the catalog advertises. */
  lemma ToolNamesAreCatalogNames(name: string)
    ensures IsToolName(name) <==> name in Names(ToolDefinitions())
  {
    CatalogNames();
  }

  // ---------------------------------------------------------------------
  // Dispatch

  /** The argument decoding half of `execute_tool`. The name is matched
      first, so an unknown name wins over a malformed payload; then the
      payload must be JSON; then each required field must be a string, in
      the order the code reads them. */
  function Plan(name: string, args: Parsed): Result<ExecutorRequest, ToolError> {
    if !IsToolName(name) then Failure(UnknownTool(name))
    else match args
      case ParseErr(m) => Failure(InvalidPayload(m))
      case ParseOk(v) =>
        if name == "bash" then DecodeBash(v)
        else if name == "read" then DecodeRead(v)
        else if name == "write" then DecodeWrite(v)
        else Success(ListFiles(AsStr(Get(v, "pattern"))))
  }

  function DecodeBash(v: Value): Result<ExecutorRequest, ToolError> {
    match AsStr(Get(v, "command"))
    case None => Failure(MissingArgument("command"))
    case Some(command) => Success(RunCommand(command))
  }

  function DecodeRead(v: Value): Result<ExecutorRequest, ToolError> {
    match AsStr(Get(v, "path"))
    case None => Failure(MissingArgument("path"))
    case Some(path) => Success(ReadFile(path))
  }

  function DecodeWrite(v: Value): Result<ExecutorRequest, ToolError> {
    match AsStr(Get(v, "path"))
    case None => Failure(MissingArgument("path"))
    case Some(path) =>
      match AsStr(Get(v, "content"))
      case None => Failure(MissingArgument("content"))
      case Some(content) => Success(WriteFile(path, content))
  }

  /** The leading phrase of the `bash` tool's text. */
  function BashLead(success: bool): string {
    if success then "Exit code: " else "Command failed with exit code: "
  }

  /** The `bash` tool's text: the leading phrase, the exit code, then the
      two output sections. */
  function BashOutput(r: ExecutionResult): string {
    BashLead(r.success) + ShowInt(r.exit_code) + "\n\nStdout:\n" + r.stdout + "\n\nStderr:\n" + r.stderr
  }

  /** The executor half of `execute_tool`: one executor call and the
      rendering of its answer. Executor errors pass through. */
  function Perform(ex: Executor, req: ExecutorRequest): Result<string, ToolError> {
    match req
    case RunCommand(command) =>
      (match ex.execute(command)
       case Success(result) => Success(BashOutput(result))
       case Failure(m) => Failure(ExecutorFailed(m)))
    case ReadFile(path) =>
      (match ex.read_file(path)
       case Success(content) => Success(content)
       case Failure(m) => Failure(ExecutorFailed(m)))
    case WriteFile(path, content) =>
      (match ex.write_file(path, content)
       case Success(_) => Success("Successfully wrote to file: " + path)
       case Failure(m) => Failure(ExecutorFailed(m)))
    case ListFiles(pattern) =>
      (match ex.list_files(pattern)
       case Success(names) => Success(Join(names, "\n"))
       case Failure(m) => Failure(ExecutorFailed(m)))
  }

  /** `execute_tool`. Name and payload errors come from `Plan` alone, so
      for them the result is the same whatever the executor would answer;
      an executor error can only follow a successful decoding. */
  function ExecuteTool(name: string, args: Parsed, ex: Executor): (r: Result<string, ToolError>)
    ensures !IsToolName(name) <==> r == Failure(UnknownTool(name))
    ensures IsToolName(name) && args.ParseErr? ==> r == Failure(InvalidPayload(args.message))
    ensures Plan(name, args).Failure? ==> r == Failure(Plan(name, args).error)
    ensures r.Failure? && r.error.ExecutorFailed? ==> Plan(name, args).Success?
  {
    match Plan(name, args)
    case Failure(e) => Failure(e)
    case Success(req) => Perform(ex, req)
  }

  // ---------------------------------------------------------------------
  // Properties of the dispatcher

  /** A request that `Plan` produces is the one the tool name asks for,
      built from the payload's own string fields; a `pattern` that is not a
      string is passed on as no pattern. */
  lemma PlanCarriesArguments(name: string, args: Parsed)
    requires Plan(name, args).Success?
    ensures args.ParseOk?
    ensures var v := args.value;
      match Plan(name, args).value
      case RunCommand(c) => name == "bash" && Get(v, "command") == Str(c)
      case ReadFile(p) => name == "read" && Get(v, "path") == Str(p)
      case WriteFile(p, c) => name == "write" && Get(v, "path") == Str(p) && Get(v, "content") == Str(c)
      case ListFiles(pat) =>
        && name == "list"
        && (pat.Some? <==> Get(v, "pattern").Str?)
        && (pat.Some? ==> Get(v, "pattern") == Str(pat.value))
  {
  }

  /** The first field of `fields` that `v` does not hold as a string. */
  function FirstMissing(fields: seq<string>, v: Value): (r: Option<string>)
    ensures r.None? <==> forall f :: f in fields ==> AsStr(Get(v, f)).Some?
    ensures r.Some? ==> r.value in fields && AsStr(Get(v, r.value)).None?
    ensures r.Some? ==>
      exists j :: && 0 <= j < |fields| && fields[j] == r.value
                  && AsStr(Get(v, fields[j])).None?
                  && (forall k :: 0 <= k < j ==> AsStr(Get(v, fields[k])).Some?)
  {
    if fields == [] then None
    else if AsStr(Get(v, fields[0])).None? then Some(fields[0])
    else FirstMissing(fields[1..], v)
  }

  /** The dispatcher accepts exactly the payloads that the catalog's schema
      for the tool describes: decoding succeeds when every required field is
      a string, and otherwise fails naming the first required field, in the
      schema's order, that is missing or not a string (for `write`, `path`
      before `content`). */
  lemma {:induction false} PlanFollowsSchema(i: nat, v: Value)
    requires i < |ToolDefinitions()|
    ensures var d := ToolDefinitions()[i];
      var missing := FirstMissing(RequiredFields(d.func.parameters), v);
      var r := Plan(d.func.name, ParseOk(v));
      && (missing.None? <==> r.Success?)
      && (missing.Some? ==> r == Failure(MissingArgument(missing.value)))
  {
    var defs := ToolDefinitions();
    if i == 0 {
      PlanFollowsSchemaFor(defs[0], v);
    } else if i == 1 {
      PlanFollowsSchemaFor(defs[1], v);
    } else if i == 2 {
      PlanFollowsSchemaFor(defs[2], v);
    } else {
      PlanFollowsSchemaFor(defs[3], v);
    }
  }

  lemma {:induction false} PlanFollowsSchemaFor(d: ToolDefinition, v: Value)
    requires
      || (d.func.name == "bash" && RequiredFields(d.func.parameters) == ["command"])
      || (d.func.name == "read" && RequiredFields(d.func.parameters) == ["path"])
      || (d.func.name == "write" && RequiredFields(d.func.parameters) == ["path", "content"])
      || (d.func.name == "list" && RequiredFields(d.func.parameters) == [])
    ensures var missing := FirstMissing(RequiredFields(d.func.parameters), v);
      var r := Plan(d.func.name, ParseOk(v));
      && (missing.None? <==> r.Success?)
      && (missing.Some? ==> r == Failure(MissingArgument(missing.value)))
  {
    var req := RequiredFields(d.func.parameters);
    if d.func.name == "bash" {
      FirstMissingStep(req, v);
    } else if d.func.name == "read" {
      FirstMissingStep(req, v);
    } else if d.func.name == "write" {
      FirstMissingStep(req, v);
      FirstMissingStep(req[1..], v);
    }
  }

  lemma FirstMissingStep(fields: seq<string>, v: Value)
    requires fields != []
    ensures FirstMissing(fields, v)
      == if AsStr(Get(v, fields[0])).None? then Some(fields[0]) else FirstMissing(fields[1..], v)
  {
  }

  /** `read` returns the file's content unchanged. */
  lemma ReadReturnsContent(v: Value, ex: Executor, path: string, content: string)
    requires Get(v, "path") == Str(path) && ex.read_file(path) == Success(content)
    ensures ExecuteTool("read", ParseOk(v), ex) == Success(content)
  {
  }

  /** `write` reports exactly the path it wrote. */
  lemma WriteConfirmsPath(v: Value, ex: Executor, path: string, content: string)
    requires Get(v, "path") == Str(path) && Get(v, "content") == Str(content)
    requires ex.write_file(path, content).Success?
    ensures ExecuteTool("write", ParseOk(v), ex) == Success("Successfully wrote to file: " + path)
  {
  }

  /** `list` passes the pattern on only when it is a string, and answers
      with the names one per line: nothing for no names, and, for names
      without line breaks, a text that splits back into them. */
  lemma ListJoinsNames(v: Value, ex: Executor, names: seq<string>)
    requires ex.list_files(AsStr(Get(v, "pattern"))) == Success(names)
    ensures ExecuteTool("list", ParseOk(v), ex).Success?
    ensures var text := ExecuteTool("list", ParseOk(v), ex).value;
      && (names == [] ==> text == "")
      && (names != [] && (forall i :: 0 <= i < |names| ==> '\n' !in names[i]) ==> Split(text, '\n') == names)
  {
    if names != [] && (forall i :: 0 <= i < |names| ==> '\n' !in names[i]) {
      SplitJoin(names, '\n');
    }
  }

  /** The `bash` text has one layout for success and failure: only the
      leading phrase differs, it tells the two apart, and the exit code
      follows it in a form that reads back exactly. */
  lemma BashOutputLayout(r: ExecutionResult)
    ensures var out, lead, code := BashOutput(r), BashLead(r.success), ShowInt(r.exit_code);
      && |lead| + |code| <= |out|
      && out[..|lead|] == lead
      && out[|lead|..] == BashOutput(r.(success := !r.success))[|BashLead(!r.success)|..]
      && (r.success <==> out[..11] == "Exit code: ")
      && out[|lead|..|lead| + |code|] == code
      && ParseInt(code) == r.exit_code
  {
    var lead, code := BashLead(r.success), ShowInt(r.exit_code);
    var rest := BashTail(r);
    BashOutputSplits(r);
    BashOutputSplits(r.(success := !r.success));
    var out := lead + rest;
    assert out[..|lead|] == lead;
    assert out[|lead|..] == rest;
    assert rest[..|code|] == code;
    assert out[|lead|..|lead| + |code|] == rest[..|code|];
    if r.success {
      assert out[..11] == lead;
    } else {
      assert out[0] == lead[0] == 'C';
    }
    ShowIntRoundTrip(r.exit_code);
  }

  /** A decoded `bash` call answers with the rendering of whatever the
      executor returned. */
  lemma BashRendersResult(v: Value, ex: Executor, command: string, r: ExecutionResult)
    requires Get(v, "command") == Str(command) && ex.execute(command) == Success(r)
    ensures ExecuteTool("bash", ParseOk(v), ex) == Success(BashOutput(r))
  {
  }

  /** An executor error is the tool's error, unchanged, for each of the four
      tools once its arguments decode. */
  lemma BashFailurePassesThrough(v: Value, ex: Executor, command: string, m: string)
    requires Get(v, "command") == Str(command) && ex.execute(command) == Failure(m)
    ensures ExecuteTool("bash", ParseOk(v), ex) == Failure(ExecutorFailed(m))
  {
  }

  lemma ReadFailurePassesThrough(v: Value, ex: Executor, path: string, m: string)
    requires Get(v, "path") == Str(path) && ex.read_file(path) == Failure(m)
    ensures ExecuteTool("read", ParseOk(v), ex) == Failure(ExecutorFailed(m))
  {
  }

  lemma WriteFailurePassesThrough(v: Value, ex: Executor, path: string, content: string, m: string)
    requires Get(v, "path") == Str(path) && Get(v, "content") == Str(content)
    requires ex.write_file(path, content) == Failure(m)
    ensures ExecuteTool("write", ParseOk(v), ex) == Failure(ExecutorFailed(m))
  {
  }

  lemma ListFailurePassesThrough(v: Value, ex: Executor, m: string)
    requires ex.list_files(AsStr(Get(v, "pattern"))) == Failure(m)
    ensures ExecuteTool("list", ParseOk(v), ex) == Failure(ExecutorFailed(m))
  {
  }

  /** Everything after the leading phrase of the `bash` text. */
  function BashTail(r: ExecutionResult): string {
    ShowInt(r.exit_code) + "\n\nStdout:\n" + r.stdout + "\n\nStderr:\n" + r.stderr
  }

  lemma BashOutputSplits(r: ExecutionResult)
    ensures BashOutput(r) == BashLead(r.success) + BashTail(r)
  {
  }

  /** A command that printed "hi" and exited with 0 renders with
      "Exit code: 0" and "hi" in its stdout section. */
  lemma EchoScenario(v: Value, ex: Executor)
    requires Get(v, "command") == Str("echo hi")
    requires ex.execute("echo hi") == Success(ExecutionResult("hi\n", "", 0, true))
    ensures ExecuteTool("bash", ParseOk(v), ex) == Success("Exit code: 0\n\nStdout:\nhi\n\n\nStderr:\n")
  {
    var r := ExecutionResult("hi\n", "", 0, true);
    assert ShowInt(0) == "0";
    assert BashOutput(r) == "Exit code: " + "0" + "\n\nStdout:\n" + "hi\n" + "\n\nStderr:\n" + "";
    assert "Exit code: " + "0" + "\n\nStdout:\n" + "hi\n" + "\n\nStderr:\n" + ""
      == "Exit code: 0\n\nStdout:\nhi\n\n\nStderr:\n";
    assert Plan("bash", ParseOk(v)) == Success(RunCommand("echo hi"));
    assert Perform(ex, RunCommand("echo hi")) == Success(BashOutput(r));
  }
}
