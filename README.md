# aishell core, modelled in Dafny

aishell is a shell assistant. A language model is offered four tools
(`bash`, `read`, `write`, `list`). An agent loop forwards the model's
tool calls to a shell executor and feeds the results back into the
conversation. The same tools are also served over the Model Context
Protocol (revision 2024-11-05, "Tools").

This project models the four parts that carry the behaviour:

- `Provider` (`provider.dfy`) is the message model: roles, messages and
  their four constructors, tool calls, tool definitions and the backend's
  response. It also models the serde serialisation (lower-case role names,
  `None` fields omitted, `call_type`/`tool_type` under `"type"`), each
  encoder with a decoder and a round-trip lemma.
- `Tools` (`tools.dfy`) is the tool catalog (`get_tool_definitions`) and
  the dispatcher (`execute_tool`). The dispatcher is split into `Plan`
  (name and argument decoding, which never reaches the executor) and
  `Perform` (one executor call and the rendering of its answer).
- `Cli` (`repl.dfy`) is the interactive session: class `Repl` holds the
  message history as a `seq<Message>`.
  - `ProcessInput` runs the bounded agent loop in place. It is proved
    equal to the specification function `AgentLoop`.
  - `Run` handles typed lines: trim, blank, `exit`/`quit`, `clear`, input.
    It is proved equal to `Replay`.
  - A history invariant, `WellFormedHistory`, is kept by every step. It
    says there is one leading System message, and every Tool message
    answers an id issued earlier.
- `Mcp` (`mcp.dfy`) is the protocol server: `handle_request` as the pure
  function `HandleRequest`, and the line loop of `run` as the method
  `Serve`. `Serve` is proved equal to a fold that skips unparsable lines.

Supporting modules:
- `Json`: the `serde_json::Value` shape, `v["key"]` and `as_str()`.
- `Text`: `str::trim`, `join` and `{}` formatting of an integer, each with
  an independent partner (a trim characterisation, `Split`, `ParseInt`).
- `Wrappers`: `Option` and `Result`.

The following are oracles passed in as parameters:
- The language-model backend: a function from (call index, request) to a
  response or an error message.
- The shell executor: a value of four functions (execute, read, write, list).
- The JSON text parser: a function from text to `ParseOk(value)` or
  `ParseErr(message)`.

In the session, the `n`-th submitted input sees `backends(n)` and
`envs(n)`. Within one input, the `k`-th tool dispatch sees executor `k`,
so files written by one call can be read by a later one. In the server,
request `k` sees executor `env(k)`.

Two behaviours of the code are easy to miss, and the model follows them:
- The tool branch of the agent loop is entered for any `Some(calls)`, an
  empty list included: it appends an Assistant message with no calls and
  goes on to the next iteration (`Cli.ToolRoundAppends`).
- A backend error is wrapped in the context "Failed to get LLM response",
  and `{}` on an `anyhow` error prints only that outer context. The
  session's report is therefore exactly `"Error: Failed to get LLM response"`,
  whatever the backend said (`Cli.FailedInputIsReported`). The cause is
  kept in `InputError`.

## Model

| member | source | states |
|---|---|---|
| Provider.SystemMessage | src/llm/provider.rs:25-32 | role System, content kept verbatim, no tool calls, no call id |
| Provider.UserMessage | src/llm/provider.rs:34-41 | role User, content verbatim, no tool calls, no call id |
| Provider.AssistantMessage | src/llm/provider.rs:43-50 | role Assistant, content verbatim, no tool calls, no call id |
| Provider.ToolMessage | src/llm/provider.rs:52-59 | role Tool, content verbatim, `tool_call_id == Some(id)`, no tool calls |
| Provider.RoleName | src/llm/provider.rs:5-12 | the lower-case serde name of a role. Stated by `RoleFromName` and `RoleNamesDistinct` |
| Provider.RoleFromName | src/llm/provider.rs:5-12 | a name decodes iff it is one of the four lower-case names, and decodes to the role that prints as it |
| Provider.RoleNamesDistinct | src/llm/provider.rs:5-12 | two roles serialise to the same name iff they are the same role |
| Provider.MessageToJson | src/llm/provider.rs:14-22 | the serialised message has keys role and content, plus `tool_calls` exactly when set and `tool_call_id` exactly when set |
| Provider.ToolDefinitionToJson | src/llm/provider.rs:76-81 | a definition serialises with keys `type` and `function`, `tool_type` under `type` |
| Provider.ToolCallsToJson | src/llm/provider.rs:62-74 | one JSON item per call, in order |
| Provider.ToolCallsFromJson | src/llm/provider.rs:62-74 | a decoded list has as many calls as items |
| Provider.ToolCallsRoundTrip | src/llm/provider.rs:62-74 | decoding serialised tool calls (id, `call_type` under `type`, function) gives them back |
| Provider.MessageRoundTrip | src/llm/provider.rs:14-22 | every message, with or without the optional fields, reads back as itself |
| Provider.ToolDefinitionRoundTrip | src/llm/provider.rs:76-88 | every tool definition reads back as itself |
| Json.Get | src/shell/tools.rs:106 | `v["k"]` is the field when `v` is an object with key `k`, otherwise `Null` |
| Json.AsStr | src/shell/tools.rs:107 | `as_str()` is `Some` exactly for a string value, and gives its text |
| Tools.BashDefinition | src/shell/tools.rs:20-36 | the `bash` entry is a function with an object schema requiring `["command"]` |
| Tools.ReadDefinition | src/shell/tools.rs:37-53 | the `read` entry is a function with an object schema requiring `["path"]` |
| Tools.WriteDefinition | src/shell/tools.rs:54-74 | the `write` entry is a function with an object schema requiring `["path", "content"]` |
| Tools.ListDefinition | src/shell/tools.rs:75-91 | the `list` entry is a function with an object schema requiring nothing |
| Tools.ToolDefinitions | src/shell/tools.rs:18-93 | exactly four entries, named bash, read, write, list in that order, each of type "function" with an object schema, with the required lists above and the descriptions the code gives them |
| Tools.StringsOfStringArray | src/shell/tools.rs:33 | a `required` array built from field names reads back as those names |
| Tools.RequiredFieldsOfSchema | src/shell/tools.rs:25-34 | the required list of a schema is the one it was built with |
| Tools.Names | src/shell/tools.rs:18-93 | the names of a definition list, index by index |
| Tools.CatalogNames | src/shell/tools.rs:18-93 | the catalog's names are `["bash", "read", "write", "list"]` |
| Tools.ToolNamesAreCatalogNames | src/shell/tools.rs:103-160 | the dispatcher accepts a name iff the catalog advertises it |
| Tools.ExecuteTool | src/shell/tools.rs:96-162 | an unknown name fails with `UnknownTool(name)` iff the name is not one of the four. For a known name, malformed JSON fails with the parser's message. Every decoding failure is the same whatever the executor would answer, so the executor is not consulted. An executor error can only follow a successful decoding |
| Tools.PlanCarriesArguments | src/shell/tools.rs:104-154 | a decoded request is the one the name asks for, built from the payload's own string fields; a non-string `pattern` becomes no pattern |
| Tools.FirstMissing | src/shell/tools.rs:141-146 | `None` iff every listed field is a string; otherwise the FIRST listed field, in the list's order, that is not a string: every field before it is one |
| Tools.PlanFollowsSchema | src/shell/tools.rs:104-158 | for each catalog entry, a parsed payload decodes iff all its required fields are strings, and otherwise fails naming the first missing one in the required list's order (for `write`, `path` before `content`) |
| Tools.PlanFollowsSchemaFor | src/shell/tools.rs:131-146 | the same, per tool, for a definition with the catalog's name and required list |
| Tools.ReadReturnsContent | src/shell/tools.rs:129-137 | `read` returns the file content unchanged |
| Tools.WriteConfirmsPath | src/shell/tools.rs:139-150 | `write` returns exactly `"Successfully wrote to file: " + path` |
| Tools.ListJoinsNames | src/shell/tools.rs:152-158 | `list` passes the pattern and returns the names joined by newlines: the empty text for no names, and text that splits back into the names when none holds a newline |
| Tools.BashOutputLayout | src/shell/tools.rs:110-126 | success and failure texts share everything after the leading phrase. Success is decided by the phrase alone. The exit code follows the phrase and reads back as the exact code |
| Tools.EchoScenario | src/shell/tools.rs:104-127 | `echo hi` exiting 0 with stdout `hi\n` renders as `"Exit code: 0\n\nStdout:\nhi\n\n\nStderr:\n"` |
| Tools.Plan | src/shell/tools.rs:103-160 | the decoding half of `execute_tool`: unknown name first, then JSON, then each required field in order. Its meaning is stated by `ExecuteTool`, `PlanCarriesArguments` and `PlanFollowsSchema` |
| Tools.Perform | src/shell/tools.rs:110-157 | one executor call and the rendering of its answer. Stated by `BashRendersResult`, `ReadReturnsContent`, `WriteConfirmsPath`, `ListJoinsNames` and the four pass-through lemmas |
| Tools.BashOutput | src/shell/tools.rs:112-124 | the `bash` text. Its layout is stated by `BashOutputLayout` |
| Tools.ErrorText | src/shell/tools.rs:105-160 | what each dispatcher error displays as: "Unknown tool: " and the name, the parser's message, "Missing '<field>' argument", or the executor's message. Used by `RunnerReportsErrors` and `CallAnswerShape` |
| Tools.BashRendersResult | src/shell/tools.rs:104-127 | a decoded `bash` call answers with the rendering of whatever result the executor returned |
| Tools.BashFailurePassesThrough | src/shell/tools.rs:110 | an executor error on `bash` is the tool's error, unchanged |
| Tools.ReadFailurePassesThrough | src/shell/tools.rs:135 | an executor error on `read` (a missing file, say) is the tool's error, unchanged |
| Tools.WriteFailurePassesThrough | src/shell/tools.rs:148 | an executor error on `write` is the tool's error, unchanged |
| Tools.ListFailurePassesThrough | src/shell/tools.rs:156 | an executor error on `list` is the tool's error, unchanged |
| Text.Trim | src/cli/repl.rs:44 | `str::trim`. Stated by `TrimStart`, `TrimEnd`, `TrimEnds` and `TrimIdempotent` |
| Text.Join | src/shell/tools.rs:157 | `join("\n")`. Its inverse is stated by `SplitJoin` |
| Text.TrimStart | src/cli/repl.rs:44 | drops a leading run of whitespace and no more |
| Text.TrimEnd | src/cli/repl.rs:44 | drops a trailing run of whitespace and no more |
| Text.TrimEnds | src/cli/repl.rs:44 | the trimmed line neither starts nor ends with whitespace |
| Text.TrimIdempotent | src/cli/repl.rs:44 | trimming twice is trimming once |
| Text.Split | src/shell/tools.rs:157 | the pieces contain no separator |
| Text.SplitJoin | src/shell/tools.rs:157 | splitting a newline join of newline-free names gives the names back |
| Text.Digits | src/shell/tools.rs:113-114 | decimal digits with no leading zero |
| Text.ShowInt | src/shell/tools.rs:113-114 | `{}` of an integer is a numeral that starts with `-` iff the number is negative |
| Text.ShowIntRoundTrip | src/shell/tools.rs:113-114 | the printed exit code reads back as the exact code |
| Text.DigitsRoundTrip | src/shell/tools.rs:113-114 | the digits of a natural number read back as it |
| Cli.ToolResultText | src/cli/repl.rs:122-125 | a tool's outcome as reply text. Stated by `RunnerReportsErrors` |
| Cli.Runner | src/cli/repl.rs:116-125 | dispatch of one tool call with `execute_tool`. Stated by `RunnerReportsErrors`, `RunnerReportsUnknownTool` and `ReadFailureIsReported` |
| Cli.ReadFailureIsReported | src/cli/repl.rs:122-125 | a `read` of a file the executor cannot read is answered `"Error executing tool: "` followed by the executor's message |
| Cli.RunnerReportsErrors | src/cli/repl.rs:116-125 | a tool call's reply text is the tool's output, or `"Error executing tool: "` followed by the error's text |
| Cli.RunnerReportsUnknownTool | src/cli/repl.rs:122-125 | a call to an unknown tool is answered `"Error executing tool: Unknown tool: " + name` |
| Cli.ToolReplies | src/cli/repl.rs:116-131 | one Tool message per call, in the calls' order, each with that call's id and its own dispatch's text |
| Cli.ToolRoundAppends | src/cli/repl.rs:107-134 | `Some(calls)` appends exactly 1 + \|calls\| messages, even for no calls, and keeps the history before them. First comes an Assistant message with the response content and `tool_calls == Some(calls)`. Then, per call in order, a Tool message with the call's id and its dispatch's text |
| Cli.PlayRound | src/cli/repl.rs:100-143 | one iteration on the backend's answer. Stated by `ToolRoundAppends`, `PlayRoundWellFormed` and `AgentLoopStop` |
| Cli.AgentLoop | src/cli/repl.rs:96-144 | the agent loop from a given iteration. Stated by `AgentLoopCalls`, `AgentLoopContinues`, `AgentLoopStop` and `AgentLoopWellFormed` |
| Cli.RunTurn | src/cli/repl.rs:89-147 | `process_input` as a function. Stated by `TurnShape`, `TurnKeepsFirst` and `TurnWellFormed` |
| Cli.AgentLoopCalls | src/cli/repl.rs:91-104 | a turn makes at least one and at most 10 backend calls. The first sees the history with the user message, every call offers the catalog, and each call's history is a prefix of the next and of the final history |
| Cli.AgentLoopContinues | src/cli/repl.rs:107-134 | every backend call but the last returned tool calls |
| Cli.AgentLoopStop | src/cli/repl.rs:96-144 | the last call's answer decides the stop. A backend error ends the turn with the history as it was sent (no retry). The cap is hit only after 10 tool rounds. A non-empty final answer appends one Assistant message; an empty one appends nothing |
| Cli.TurnShape | src/cli/repl.rs:89-104 | a turn first appends exactly one User message with the input, and that history is a prefix of everything after |
| Cli.TurnKeepsFirst | src/cli/repl.rs:89-147 | a turn only appends: the history grows and keeps its first message |
| Cli.WellFormedAppendUser | src/cli/repl.rs:91 | appending the User message keeps the history well formed |
| Cli.WellFormedAppendAnswer | src/cli/repl.rs:138-141 | appending the final Assistant message keeps the history well formed |
| Cli.ReplyAnswersIssuedCall | src/cli/repl.rs:130 | each Tool reply's id was issued by the Assistant message just before the replies |
| Cli.WellFormedAppendToolRound | src/cli/repl.rs:111-131 | a tool round keeps the history well formed: every Tool message answers an issued call id |
| Cli.PlayRoundWellFormed | src/cli/repl.rs:100-143 | one iteration keeps the history well formed |
| Cli.AgentLoopWellFormed | src/cli/repl.rs:96-144 | the whole agent loop keeps the history well formed |
| Cli.TurnWellFormed | src/cli/repl.rs:89-147 | `process_input` keeps the history well formed |
| Cli.Classify | src/cli/repl.rs:44-59 | on the trimmed line: blank iff Skip, `exit`/`quit` iff Quit, `clear` iff ClearHistory, anything else is submitted as the trimmed text |
| Cli.ClassifyIgnoresSurroundingWhitespace | src/cli/repl.rs:44 | surrounding whitespace never changes a command, and a submitted input has none |
| Cli.TruncatedWellFormed | src/cli/repl.rs:55-56 | `truncate(1)` on a well-formed history leaves exactly its System message |
| Cli.Truncated | src/cli/repl.rs:56 | `truncate(1)`. Stated by `TruncatedWellFormed` |
| Cli.Advance | src/cli/repl.rs:42-78 | what one read event does. Stated by `AdvanceWellFormed`, `ClearLeavesSystemMessage`, `LeavingStopsReading`, `IdleEventsChangeNothing` and `FailedInputIsReported` |
| Cli.Replay | src/cli/repl.rs:39-80 | the read loop over a sequence of events. Stated by `ReplayWellFormed` and `SessionKeepsSystemPrompt` |
| Cli.AdvanceWellFormed | src/cli/repl.rs:42-78 | every event keeps the history well formed and its first message |
| Cli.ReplayWellFormed | src/cli/repl.rs:39-80 | every history a session reaches is well formed and keeps its first message |
| Cli.SessionKeepsSystemPrompt | src/cli/repl.rs:19-30 | a fresh session, whatever is typed, keeps the system prompt first and its history well formed |
| Cli.ClearLeavesSystemMessage | src/cli/repl.rs:55-59 | `clear` leaves only the first message, makes no backend call, and reading goes on |
| Cli.LeavingStopsReading | src/cli/repl.rs:50-53 | `exit`, `quit`, end of input and a read error end the loop at once, leaving the history and error reports unchanged. The same holds for lines 71-78 |
| Cli.IdleEventsChangeNothing | src/cli/repl.rs:46-48 | a blank line changes nothing and reading goes on. The same holds for an interrupt (lines 67-70) |
| Cli.FailedInputIsReported | src/cli/repl.rs:63-65 | an input whose turn hit a backend error is reported as `"Error: Failed to get LLM response"`. The messages appended before the failure are kept, and the session goes on |
| Cli.Repl.constructor | src/cli/repl.rs:15-31 | a new session's history is exactly one System message with the system prompt |
| Cli.Repl.Clear | src/cli/repl.rs:56 | the history becomes its first message alone and stays well formed |
| Cli.Repl.AnswerToolCalls | src/cli/repl.rs:116-131 | appends exactly `ToolReplies` of the calls |
| Cli.Repl.ToolRound | src/cli/repl.rs:107-134 | the history afterwards is the one the tool round of `PlayRound` describes |
| Cli.Repl.Iterate | src/cli/repl.rs:97-143 | one iteration: the loop goes on exactly when the answer carries tool calls, and then the new history and dispatch count are those of that round. Otherwise the history is the turn's final one, and a backend failure is reported with the context "Failed to get LLM response" |
| Cli.Repl.Converse | src/cli/repl.rs:93-146 | the history afterwards is `AgentLoop`'s, and the result fails exactly when a backend call failed |
| Cli.Repl.Submit | src/cli/repl.rs:89-147 | `process_input` for a given catalog and tool runner leaves the history `RunTurn` describes and keeps it well formed |
| Cli.Repl.ProcessInput | src/cli/repl.rs:89-147 | `process_input` with the catalog and `execute_tool` leaves exactly `RunTurn`'s history, keeps it well formed, and fails exactly on a backend error |
| Cli.Repl.Handle | src/cli/repl.rs:42-79 | one read event does what `Advance` describes |
| Cli.Repl.ReadLoop | src/cli/repl.rs:39-80 | the loop over read events leaves the state `Replay` describes |
| Cli.Repl.Run | src/cli/repl.rs:33-83 | `run` leaves the history, error reports and exit reason that `Replay` describes, and keeps the history well formed |
| Mcp.HandleRequest | src/mcp/mod.rs:53-120 | `handle_request`. Stated by `InitializeAnswer`, `ListAnswer`, `CallAnswer`, `NamelessCallIsUnknownTool`, `MissingFileCall` and `OtherMethodsNotFound` |
| Mcp.InitializeAnswer | src/mcp/mod.rs:57-67 | `initialize` answers, whatever the params, exactly `protocolVersion` "2024-11-05", `capabilities.tools` `{}` and `serverInfo` `{name: "aishell", version: "0.1.0"}` |
| Mcp.ToolEntries | src/mcp/mod.rs:72-81 | one entry per definition, in order |
| Mcp.ListAnswerMirrors | src/mcp/mod.rs:70-85 | the list has one entry per definition, in order. Each entry has exactly the keys name, description and inputSchema, equal to the definition's name, description and parameters |
| Mcp.ListAnswer | src/mcp/mod.rs:70-85 | `tools/list` answers with the catalog, four entries |
| Mcp.CallAnswerShape | src/mcp/mod.rs:92-106 | a call answers with one text content. It has no `isError` key on success. On failure the text is `"Error: " + error` and `isError` is true. There is never an `error` key |
| Mcp.CallAnswer | src/mcp/mod.rs:88-109 | `tools/call` dispatches `params.name` with `params.arguments` |
| Mcp.NamelessCallIsUnknownTool | src/mcp/mod.rs:89-92 | a missing or non-string `params.name` is the unknown tool `""`, answered with `isError` |
| Mcp.MissingFileCall | src/mcp/mod.rs:88-106 | `tools/call` of `read` on a file the executor cannot read answers `{content: [text "Error: " + message], isError: true}`, not a protocol error |
| Mcp.OtherMethodsNotFound | src/mcp/mod.rs:53-56 | the answer is "method not found" iff the method is none of the three. A missing or non-string method counts as `""`. The not-found answer is at lines 111-118 |
| Mcp.NotFoundShape | src/mcp/mod.rs:111-118 | exactly `{error: {code: -32601, message: "Method not found: " + method}}` |
| Mcp.Requests | src/mcp/mod.rs:34-40 | the requests are the parsed lines, no more of them than lines |
| Mcp.Responses | src/mcp/mod.rs:42-47 | one response per request, in order, each `handle_request` of that request |
| Mcp.ResponsesSnoc | src/mcp/mod.rs:42-47 | one more request adds its answer at the end |
| Mcp.RequestsAppend | src/mcp/mod.rs:26-48 | the requests of two stretches of input are those of each, in order |
| Mcp.MalformedLineIgnored | src/mcp/mod.rs:34-40 | an unparsable line yields nothing and does not stop the loop |
| Mcp.ParsedLineAnswered | src/mcp/mod.rs:34-47 | a parsed line is answered in its place in the input order |
| Mcp.OneAnswerPerParsedLine | src/mcp/mod.rs:34-47 | exactly one output line per parsed input line |
| Mcp.Serve | src/mcp/mod.rs:18-51 | writes exactly the responses to the parsed lines, in order. End of input ends normally; a read error ends with that error |

## Left out

- The shell executor (`src/shell/executor.rs`: process spawning, file I/O, globbing) is an oracle. It is not part of this model.
- The OpenAI backend (`src/llm/openai.rs`: HTTP, environment variables, decoding the reply) is an oracle returning a response or an error. Which backend is chosen (`create_provider`) is not modelled, and neither is its failure in `Repl::new`.
- JSON text is not parsed or printed. Parsing is an input (`ParseOk`/`ParseErr`), and the printed response lines are JSON values.
- `tools/call` re-serialises `params.arguments` to text and parses it again. The model takes that round trip to give back the same value.
- JSON numbers are integers only. No floating-point value occurs in the modelled code.
- The `ToolArguments` enum is declared but never used by `execute_tool`.
- Readline editing is not modelled: prompt, history entries and the failure of `DefaultEditor::new`. Each read is an input event. A failure of `add_history_entry`, which would end `run` with an error, is not modelled.
- A read error's `{:?}` text is modelled as the error's message.
- The following are left out as output only: the `println!`/`eprintln!` output other than error reports, the `tracing` logs, and the `"^C"`/`"^D"`/`"Goodbye!"` messages.
- Cli.LeavingStopsReading: the `eprintln!("Error: {:?}", err)` a read error writes at src/cli/repl.rs:76 is not added to the error reports; the message is kept in the exit reason `ReadError(m)` instead.
- The server's write and flush errors on standard output, which would end `run` with an error, are not modelled.
- `execute_once` is a single `process_input` call; it has no separate member.
- Async execution: every `await` is a sequential step.
- The backend is indexed by the call number within a turn and by the input number in a session. The executor is indexed by dispatch number. These indices stand for whatever state the real backend and filesystem carry between calls.
