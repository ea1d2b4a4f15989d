/** The interactive session (`Repl`): its message history, the agent loop
    of `process_input`, and the line handling of `run`.
    The language-model backend, the JSON parser used on tool arguments and
    the executor are oracles handed in by the caller. The agent loop is
    specified by the function `AgentLoop`; `Repl.ProcessInput` runs the
    loop on the object's history and is proved to leave exactly what
    `AgentLoop` describes. */
module Cli {
  import opened Wrappers
  import opened Json
  import opened Text
  import opened Provider
  import opened Tools

  /** The most backend calls one input may cause. */
  const MaxIterations: nat := 10

  /** The system prompt every session starts with, one sentence per part. */
  const SystemPrompt: string := PromptRole + PromptTools + PromptTask + PromptStyle
  const PromptRole := "You are an AI assistant that helps users interact with their system through shell commands. "
  const PromptTools := "You have access to tools like bash, read, write, and list to help users accomplish their tasks. "
  const PromptTask := "When a user asks you to do something, use the appropriate tools to complete the task. "
  const PromptStyle := "Always explain what you're doing and show the results to the user."

  /** The context a failed backend call is reported with. */
  const BackendContext := "Failed to get LLM response"

  /** `serde_json::from_str` on a tool call's argument text. */
  type JsonParser = string -> Parsed

  /** The executor as seen by each tool dispatch of one input, numbered from
      0: files written by one call may be read by a later one. */
  type Environment = nat -> Executor

  // ---------------------------------------------------------------------
  // Tool replies

  /** The text a tool call leaves in the history: the tool's output, or the
      error folded into text. */
  function ToolResultText(r: Result<string, ToolError>): string {
    match r
    case Success(output) => output
    case Failure(e) => "Error executing tool: " + ErrorText(e)
  }

  /** What the agent loop needs of the tools: the text left by the `k`-th
      dispatch of a turn for a call. */
  type ToolRunner = (nat, ToolCall) -> string

  /** The runner of a session: `execute_tool` on the call's name and parsed
      argument text, against the executor as the `k`-th dispatch sees it. */
  function Runner(parse: JsonParser, env: Environment): ToolRunner {
    (k: nat, c: ToolCall) => ToolResultText(ExecuteTool(c.func.name, parse(c.func.arguments), env(k)))
  }

  /** A tool call leaves a reply whether or not it succeeds: the tool's
      text, or the error's text behind a fixed phrase. */
  lemma RunnerReportsErrors(parse: JsonParser, env: Environment, k: nat, c: ToolCall)
    ensures var r := ExecuteTool(c.func.name, parse(c.func.arguments), env(k));
      Runner(parse, env)(k, c) == if r.Success? then r.value else "Error executing tool: " + ErrorText(r.error)
  {
  }

  /** A call to a tool the dispatcher does not know is answered with the
      unknown-tool error, whatever its arguments. */
  lemma RunnerReportsUnknownTool(parse: JsonParser, env: Environment, k: nat, c: ToolCall)
    requires !IsToolName(c.func.name)
    ensures Runner(parse, env)(k, c) == "Error executing tool: Unknown tool: " + c.func.name
  {
    var r := ExecuteTool(c.func.name, parse(c.func.arguments), env(k));
    assert r == Failure(UnknownTool(c.func.name));
    assert ErrorText(r.error) == "Unknown tool: " + c.func.name;
  }

  /** A `read` of a missing file: the executor's error is passed through
      and becomes the reply text, behind the fixed phrase. */
  lemma ReadFailureIsReported(parse: JsonParser, env: Environment, k: nat, c: ToolCall, v: Value, path: string, m: string)
    requires c.func.name == "read" && parse(c.func.arguments) == ParseOk(v)
    requires Get(v, "path") == Str(path) && env(k).read_file(path) == Failure(m)
    ensures Runner(parse, env)(k, c) == "Error executing tool: " + m
  {
    ReadFailurePassesThrough(v, env(k), path, m);
  }

  /** The Tool messages answering `calls`, the first dispatched as number
      `first`: one message per call, in the calls' order, each carrying its
      call's id and the text its own dispatch left. */
  function ToolReplies(calls: seq<ToolCall>, run: ToolRunner, first: nat): (r: seq<Message>)
    ensures |r| == |calls|
    ensures forall i {:trigger r[i]} :: 0 <= i < |calls| ==> r[i] == ToolMessage(run(first + i, calls[i]), calls[i].id)
  {
    if calls == [] then []
    else
      var n := |calls| - 1;
      ToolReplies(calls[..n], run, first) + [ToolMessage(run(first + n, calls[n]), calls[n].id)]
  }

  /** The Assistant message that carries a response's tool calls. */
  function AssistantWithCalls(content: string, calls: seq<ToolCall>): Message {
    AssistantMessage(content).(tool_calls := Some(calls))
  }

  // ---------------------------------------------------------------------
  // The agent loop as a function

  /** How one input's agent loop ended. */
  datatype Stop =
    | Answered                      // a final answer was appended
    | Silent                        // an empty answer: nothing appended
    | IterationCap                  // still asking for tools after the last iteration
    | BackendFailed(cause: string)  // a backend call failed; the turn is abandoned

  /** The history after one input, every request sent to the backend, and
      how the loop ended. */
  datatype Turn = Turn(history: seq<Message>, requests: seq<ChatRequest>, stop: Stop)

  /** What one backend answer does: the loop goes on with a longer history
      and a new count of dispatched tool calls, or it ends. */
  datatype Round =
    | Continue(next: seq<Message>, dispatched: nat)
    | Done(history: seq<Message>, stop: Stop)

  /** One iteration of the agent loop after its backend call: tool calls are
      recorded on an Assistant message and each answered by a Tool message;
      an answer without tool calls ends the loop. */
  function PlayRound(history: seq<Message>, answer: Result<ChatResponse, string>, run: ToolRunner, dispatched: nat): Round
  {
    match answer
    case Failure(e) => Done(history, BackendFailed(e))
    case Success(response) =>
      match response.tool_calls
      case Some(calls) =>
        Continue(history + [AssistantWithCalls(response.content, calls)] + ToolReplies(calls, run, dispatched),
                 dispatched + |calls|)
      case None =>
        if response.content != "" then Done(history + [AssistantMessage(response.content)], Answered)
        else Done(history, Silent)
  }

  /** A response with tool calls appends 1 + |calls| messages, even for no
      calls: the Assistant message carrying the calls, then one Tool message
      per call in order, with the call's id and the text of its own
      dispatch; a failing call does not keep the later ones from running. */
  lemma ToolRoundAppends(history: seq<Message>, response: ChatResponse, run: ToolRunner, dispatched: nat)
    requires response.tool_calls.Some?
    ensures var calls := response.tool_calls.value;
      var round := PlayRound(history, Success(response), run, dispatched);
      && round.Continue?
      && round.dispatched == dispatched + |calls|
      && |round.next| == |history| + 1 + |calls|
      && round.next[..|history|] == history
      && round.next[|history|].role == Assistant
      && round.next[|history|].content == response.content
      && round.next[|history|].tool_calls == Some(calls)
      && forall i :: 0 <= i < |calls| ==>
           && round.next[|history| + 1 + i].role == Tool
           && round.next[|history| + 1 + i].tool_call_id == Some(calls[i].id)
           && round.next[|history| + 1 + i].content == run(dispatched + i, calls[i])
  {
    var calls := response.tool_calls.value;
    var replies := ToolReplies(calls, run, dispatched);
    var next := history + [AssistantWithCalls(response.content, calls)] + replies;
    forall i | 0 <= i < |calls|
      ensures next[|history| + 1 + i] == replies[i]
    {
    }
  }

  function AgentLoop(history: seq<Message>, iteration: nat, requests: seq<ChatRequest>,
                     tools: seq<ToolDefinition>, backend: Backend, run: ToolRunner, dispatched: nat): Turn
    decreases MaxIterations - iteration
  {
    if iteration >= MaxIterations then Turn(history, requests, IterationCap)
    else
      var request := ChatRequest(history, Some(tools));
      match PlayRound(history, backend(iteration, request), run, dispatched)
      case Continue(next, d) => AgentLoop(next, iteration + 1, requests + [request], tools, backend, run, d)
      case Done(h, stop) => Turn(h, requests + [request], stop)
  }

  /** One iteration of the agent loop, as the imperative loop takes it. */
  lemma AgentLoopUnfold(history: seq<Message>, iteration: nat, requests: seq<ChatRequest>,
                        tools: seq<ToolDefinition>, backend: Backend, run: ToolRunner, dispatched: nat)
    requires iteration < MaxIterations
    ensures var request := ChatRequest(history, Some(tools));
      var round := PlayRound(history, backend(iteration, request), run, dispatched);
      AgentLoop(history, iteration, requests, tools, backend, run, dispatched)
        == if round.Continue? then AgentLoop(round.next, iteration + 1, requests + [request], tools, backend, run, round.dispatched)
           else Turn(round.history, requests + [request], round.stop)
  {
  }

  /** `process_input` on a history: append the input as a User message, then
      run the agent loop. */
  function RunTurn(history: seq<Message>, input: string, tools: seq<ToolDefinition>, backend: Backend, run: ToolRunner): Turn {
    AgentLoop(history + [UserMessage(input)], 0, [], tools, backend, run, 0)
  }

  predicate IsPrefix(a: seq<Message>, b: seq<Message>) {
    |a| <= |b| && b[..|a|] == a
  }

  /** What one answer of the backend means for the loop: a request that got
      tool calls back lets the loop go on. */
  predicate AskedForTools(r: Result<ChatResponse, string>) {
    r.Success? && r.value.tool_calls.Some?
  }

  lemma IsPrefixTransitive(a: seq<Message>, b: seq<Message>, c: seq<Message>)
    requires IsPrefix(a, b) && IsPrefix(b, c)
    ensures IsPrefix(a, c)
  {
    assert c[..|a|] == c[..|b|][..|a|];
  }

  /** The calls of every run of the agent loop from a state in which the
      number of requests sent equals the iteration number: at least one and
      at most the remaining number of calls are made, the first with the
      history as it stands; the history is only appended to, and every
      request carries the catalog and the whole history as it stood at that
      call. */
  lemma {:induction false} AgentLoopCalls(history: seq<Message>, iteration: nat, requests: seq<ChatRequest>,
                                          tools: seq<ToolDefinition>, backend: Backend, run: ToolRunner, dispatched: nat)
    requires iteration < MaxIterations && |requests| == iteration
    ensures var t := AgentLoop(history, iteration, requests, tools, backend, run, dispatched);
      && |requests| < |t.requests| <= MaxIterations
      && t.requests[..|requests|] == requests
      && t.requests[|requests|] == ChatRequest(history, Some(tools))
      && IsPrefix(history, t.history)
      && (forall k :: |requests| <= k < |t.requests| ==>
            && t.requests[k].tools == Some(tools)
            && IsPrefix(history, t.requests[k].messages)
            && IsPrefix(t.requests[k].messages, t.history))
      && (forall k :: |requests| <= k < |t.requests| - 1 ==>
            IsPrefix(t.requests[k].messages, t.requests[k + 1].messages))
    decreases MaxIterations - iteration
  {
    var request := ChatRequest(history, Some(tools));
    var t := AgentLoop(history, iteration, requests, tools, backend, run, dispatched);
    match PlayRound(history, backend(iteration, request), run, dispatched)
    case Done(h, stop) =>
    case Continue(next, d) =>
        var requests' := requests + [request];
        assert IsPrefix(history, next);
        if iteration + 1 < MaxIterations {
          AgentLoopCalls(next, iteration + 1, requests', tools, backend, run, d);
          assert t.requests[..|requests'|] == requests';
          assert t.requests[..|requests|] == requests'[..|requests|];
          IsPrefixTransitive(history, next, t.history);
          forall k | |requests| <= k < |t.requests|
            ensures IsPrefix(history, t.requests[k].messages)
          {
            if k == |requests| {
              assert t.requests[k] == requests'[k];
            } else {
              IsPrefixTransitive(history, next, t.requests[k].messages);
            }
          }
        }
  }

  /** Every call of the agent loop but the last got tool calls back. */
  lemma {:induction false} AgentLoopContinues(history: seq<Message>, iteration: nat, requests: seq<ChatRequest>,
                                              tools: seq<ToolDefinition>, backend: Backend, run: ToolRunner, dispatched: nat)
    requires iteration < MaxIterations && |requests| == iteration
    ensures var t := AgentLoop(history, iteration, requests, tools, backend, run, dispatched);
      forall k :: |requests| <= k < |t.requests| - 1 ==> AskedForTools(backend(k, t.requests[k]))
    decreases MaxIterations - iteration
  {
    var request := ChatRequest(history, Some(tools));
    var t := AgentLoop(history, iteration, requests, tools, backend, run, dispatched);
    match PlayRound(history, backend(iteration, request), run, dispatched)
    case Done(h, stop) =>
    case Continue(next, d) =>
        var requests' := requests + [request];
        if iteration + 1 < MaxIterations {
          AgentLoopContinues(next, iteration + 1, requests', tools, backend, run, d);
          AgentLoopCalls(next, iteration + 1, requests', tools, backend, run, d);
          assert t.requests[|requests|] == requests'[|requests|] by {
            assert t.requests[..|requests'|] == requests';
          }
        }
  }

  /** The last call of the agent loop decides how it ends: a failure ends it
      at once with nothing appended; an answer without tool calls appends its
      text if there is any; asking for tools ends it only at the cap. */
  lemma {:induction false} AgentLoopStop(history: seq<Message>, iteration: nat, requests: seq<ChatRequest>,
                                         tools: seq<ToolDefinition>, backend: Backend, run: ToolRunner, dispatched: nat)
    requires iteration < MaxIterations && |requests| == iteration
    ensures var t := AgentLoop(history, iteration, requests, tools, backend, run, dispatched);
      && t.requests != []
      && var last := |t.requests| - 1;
         var answer := backend(last, t.requests[last]);
         match t.stop
         case BackendFailed(e) => answer == Failure(e) && t.history == t.requests[last].messages
         case IterationCap => |t.requests| == MaxIterations && AskedForTools(answer)
         case Answered =>
           && answer.Success? && answer.value.tool_calls.None? && answer.value.content != ""
           && t.history == t.requests[last].messages + [AssistantMessage(answer.value.content)]
         case Silent =>
           && answer.Success? && answer.value.tool_calls.None? && answer.value.content == ""
           && t.history == t.requests[last].messages
    decreases MaxIterations - iteration
  {
    var request := ChatRequest(history, Some(tools));
    var t := AgentLoop(history, iteration, requests, tools, backend, run, dispatched);
    match PlayRound(history, backend(iteration, request), run, dispatched)
    case Done(h, stop) =>
    case Continue(next, d) =>
        var requests' := requests + [request];
        if iteration + 1 < MaxIterations {
          AgentLoopStop(next, iteration + 1, requests', tools, backend, run, d);
        } else {
          assert t.requests[|t.requests| - 1] == request;
        }
  }

  /** `process_input` from the outside: the history keeps its old messages,
      then the input as one User message; the backend is called at least once
      and at most `MaxIterations` times, the first time with exactly that
      history. */
  lemma TurnShape(history: seq<Message>, input: string, tools: seq<ToolDefinition>, backend: Backend, run: ToolRunner)
    ensures var t := RunTurn(history, input, tools, backend, run);
      && 1 <= |t.requests| <= MaxIterations
      && t.requests[0].messages == history + [UserMessage(input)]
      && IsPrefix(history + [UserMessage(input)], t.history)
  {
    AgentLoopCalls(history + [UserMessage(input)], 0, [], tools, backend, run, 0);
  }

  // ---------------------------------------------------------------------
  // The history invariant

  /** The ids of the tool calls a message issues. */
  function CallIds(m: Message): set<string> {
    if m.tool_calls.Some? then set c | c in m.tool_calls.value :: c.id else {}
  }

  /** The ids issued by the Assistant messages of `h`. */
  function IssuedIds(h: seq<Message>): set<string> {
    if h == [] then {} else IssuedIds(h[..|h| - 1]) + CallIds(h[|h| - 1])
  }

  lemma {:induction false} IssuedIdsAppend(a: seq<Message>, b: seq<Message>)
    ensures IssuedIds(a + b) == IssuedIds(a) + IssuedIds(b)
    decreases |b|
  {
    if b == [] {
      assert a + b == a;
    } else {
      var n := |b| - 1;
      assert (a + b)[..|a + b| - 1] == a + b[..n];
      IssuedIdsAppend(a, b[..n]);
      calc {
        IssuedIds(a + b);
        IssuedIds(a + b[..n]) + CallIds(b[n]);
        IssuedIds(a) + IssuedIds(b[..n]) + CallIds(b[n]);
        IssuedIds(a) + IssuedIds(b);
      }
    }
  }

  /** A session history: a system message first and nowhere else; only
      Assistant messages carry tool calls; exactly the Tool messages carry a
      call id, and each answers a call issued earlier in the history. */
  ghost predicate WellFormedHistory(h: seq<Message>) {
    && |h| >= 1
    && h[0].role == System && h[0].tool_calls == None
    && (forall i :: 1 <= i < |h| ==> h[i].role != System)
    && (forall i :: 0 <= i < |h| && h[i].tool_calls.Some? ==> h[i].role == Assistant)
    && (forall i :: 0 <= i < |h| ==> (h[i].tool_call_id.Some? <==> h[i].role == Tool))
    && (forall i :: 0 <= i < |h| && h[i].role == Tool ==> h[i].tool_call_id.value in IssuedIds(h[..i]))
  }

  lemma WellFormedAppendUser(h: seq<Message>, input: string)
    requires WellFormedHistory(h)
    ensures WellFormedHistory(h + [UserMessage(input)])
  {
    var h' := h + [UserMessage(input)];
    forall i | 0 <= i < |h'| && h'[i].role == Tool
      ensures h'[i].tool_call_id.value in IssuedIds(h'[..i])
    {
      assert h'[..i] == h[..i];
    }
  }

  lemma WellFormedAppendAnswer(h: seq<Message>, content: string)
    requires WellFormedHistory(h)
    ensures WellFormedHistory(h + [AssistantMessage(content)])
  {
    var h' := h + [AssistantMessage(content)];
    forall i | 0 <= i < |h'| && h'[i].role == Tool
      ensures h'[i].tool_call_id.value in IssuedIds(h'[..i])
    {
      assert h'[..i] == h[..i];
    }
  }

  /** The reply at position `i` past the Assistant message answers one of
      the calls that message issued. */
  lemma ReplyAnswersIssuedCall(h: seq<Message>, content: string, calls: seq<ToolCall>, run: ToolRunner, first: nat, i: nat)
    requires |h| < i < |h| + 1 + |calls|
    ensures var h' := h + [AssistantWithCalls(content, calls)] + ToolReplies(calls, run, first);
      h'[i].tool_call_id.value in CallIds(h'[|h|])
    ensures var h' := h + [AssistantWithCalls(content, calls)] + ToolReplies(calls, run, first);
      h'[i].tool_call_id.value in IssuedIds(h'[..i])
  {
    var a := AssistantWithCalls(content, calls);
    var replies := ToolReplies(calls, run, first);
    var h' := h + [a] + replies;
    var j := i - |h| - 1;
    assert h'[i] == replies[j];
    assert calls[j] in calls;
    assert calls[j].id in CallIds(a);
    var rest := h'[|h| + 1..i];
    assert h'[..i] == (h + [a]) + rest;
    IssuedIdsAppend(h + [a], rest);
    assert IssuedIds(h + [a]) == IssuedIds(h) + CallIds(a) by {
      assert (h + [a])[..|h + [a]| - 1] == h;
    }
  }

  /** Appending an Assistant message with tool calls followed by the replies
      to those calls keeps the history well formed: each reply answers a call
      the Assistant message just issued. */
  lemma WellFormedAppendToolRound(h: seq<Message>, content: string, calls: seq<ToolCall>, run: ToolRunner, first: nat)
    requires WellFormedHistory(h)
    ensures WellFormedHistory(h + [AssistantWithCalls(content, calls)] + ToolReplies(calls, run, first))
  {
    var a := AssistantWithCalls(content, calls);
    var replies := ToolReplies(calls, run, first);
    var h' := h + [a] + replies;
    forall i | 0 <= i < |h'| && h'[i].role == Tool
      ensures h'[i].tool_call_id.value in IssuedIds(h'[..i])
    {
      if i < |h| {
        assert h'[..i] == h[..i];
      } else {
        ReplyAnswersIssuedCall(h, content, calls, run, first, i);
      }
    }
  }

  /** One round keeps the history well formed. */
  lemma PlayRoundWellFormed(history: seq<Message>, answer: Result<ChatResponse, string>, run: ToolRunner, dispatched: nat)
    requires WellFormedHistory(history)
    ensures var round := PlayRound(history, answer, run, dispatched);
      WellFormedHistory(if round.Continue? then round.next else round.history)
  {
    if answer.Success? {
      var response := answer.value;
      if response.tool_calls.Some? {
        WellFormedAppendToolRound(history, response.content, response.tool_calls.value, run, dispatched);
      } else if response.content != "" {
        WellFormedAppendAnswer(history, response.content);
      }
    }
  }

  /** The agent loop keeps the history well formed. */
  lemma {:induction false} AgentLoopWellFormed(history: seq<Message>, iteration: nat, requests: seq<ChatRequest>,
                                               tools: seq<ToolDefinition>, backend: Backend, run: ToolRunner, dispatched: nat)
    requires WellFormedHistory(history)
    ensures WellFormedHistory(AgentLoop(history, iteration, requests, tools, backend, run, dispatched).history)
    decreases MaxIterations - iteration
  {
    if iteration < MaxIterations {
      var request := ChatRequest(history, Some(tools));
      var round := PlayRound(history, backend(iteration, request), run, dispatched);
      PlayRoundWellFormed(history, backend(iteration, request), run, dispatched);
      AgentLoopUnfold(history, iteration, requests, tools, backend, run, dispatched);
      if round.Continue? {
        AgentLoopWellFormed(round.next, iteration + 1, requests + [request], tools, backend, run, round.dispatched);
      }
    }
  }

  lemma TurnWellFormed(history: seq<Message>, input: string, tools: seq<ToolDefinition>, backend: Backend, run: ToolRunner)
    requires WellFormedHistory(history)
    ensures WellFormedHistory(RunTurn(history, input, tools, backend, run).history)
  {
    WellFormedAppendUser(history, input);
    AgentLoopWellFormed(history + [UserMessage(input)], 0, [], tools, backend, run, 0);
  }

  // ---------------------------------------------------------------------
  // Line handling of the interactive loop

  /** What the interactive loop does with one line the user typed. */
  datatype Command =
    | Skip                 // blank line: prompt again
    | Quit                 // `exit` or `quit`
    | ClearHistory         // `clear`
    | Submit(input: string)

  /** Classify a line by its text with surrounding whitespace removed. A
      submitted input is that trimmed text, never blank and never one of
      the three words. */
  function Classify(line: string): (c: Command)
    ensures c == Skip <==> Trim(line) == ""
    ensures c == Quit <==> Trim(line) == "exit" || Trim(line) == "quit"
    ensures c == ClearHistory <==> Trim(line) == "clear"
    ensures c.Submit? ==> c.input == Trim(line)
  {
    var t := Trim(line);
    if t == "" then Skip
    else if t == "exit" || t == "quit" then Quit
    else if t == "clear" then ClearHistory
    else Submit(t)
  }

  /** Whitespace around a command does not change what it does, and an
      input is submitted without surrounding whitespace. */
  lemma ClassifyIgnoresSurroundingWhitespace(line: string)
    ensures Classify(Trim(line)) == Classify(line)
    ensures Classify(line).Submit? ==> Trim(Classify(line).input) == Classify(line).input
  {
    TrimIdempotent(line);
  }

  /** One outcome of reading a line from the terminal. */
  datatype ReadEvent =
    | Line(text: string)
    | Interrupted           // Ctrl-C: prompt again
    | Eof                   // Ctrl-D: leave
    | ReadFailed(message: string)

  /** Why a session ended; `Waiting` means every event was consumed and the
      loop is still prompting. */
  datatype Exit = Waiting | QuitCommand | EndOfInput | ReadError(message: string)

  /** The state of a session after events: its history, the number of inputs
      submitted, the error lines written for failed inputs, how many events
      were consumed and why it ended. */
  datatype Session = Session(history: seq<Message>, submitted: nat, errors: seq<string>, consumed: nat, exit: Exit)

  /** The text written to the error stream for a failed input: only the
      outermost context of the error. */
  const FailedInputReport := "Error: " + BackendContext

  /** The history after `clear`: its first message alone, if it has one. */
  function Truncated(history: seq<Message>): seq<Message> {
    if |history| <= 1 then history else history[..1]
  }

  lemma TruncatedWellFormed(history: seq<Message>)
    requires WellFormedHistory(history)
    ensures WellFormedHistory(Truncated(history)) && Truncated(history) == [history[0]]
  {
  }

  /** A turn keeps the history's first message. */
  lemma TurnKeepsFirst(history: seq<Message>, input: string, tools: seq<ToolDefinition>, backend: Backend, run: ToolRunner)
    requires history != []
    ensures var t := RunTurn(history, input, tools, backend, run);
      |t.history| > |history| && t.history[0] == history[0]
  {
    TurnShape(history, input, tools, backend, run);
    var t := RunTurn(history, input, tools, backend, run);
    var p := history + [UserMessage(input)];
    assert t.history[..|p|] == p;
    assert t.history[0] == t.history[..|p|][0];
  }

  /** What one read event does to a session: it goes on with a history, a
      count of submitted inputs and the error lines written for the event,
      or it ends. */
  datatype Step =
    | Next(history: seq<Message>, submitted: nat, reports: seq<string>)
    | Leave(exit: Exit)

  /** One pass of the interactive loop's body, with catalog `tools`. The
      backend and the tool runner of the `n`-th submitted input are
      `backends(n)` and `runs(n)`. */
  function Advance(history: seq<Message>, event: ReadEvent, submitted: nat,
                   tools: seq<ToolDefinition>, backends: nat -> Backend, runs: nat -> ToolRunner): Step
  {
    match event
    case Interrupted => Next(history, submitted, [])
    case Eof => Leave(EndOfInput)
    case ReadFailed(m) => Leave(ReadError(m))
    case Line(text) =>
      match Classify(text)
      case Skip => Next(history, submitted, [])
      case Quit => Leave(QuitCommand)
      case ClearHistory => Next(Truncated(history), submitted, [])
      case Submit(input) =>
        var t := RunTurn(history, input, tools, backends(submitted), runs(submitted));
        Next(t.history, submitted + 1, if t.stop.BackendFailed? then [FailedInputReport] else [])
  }

  /** The interactive loop from event `i` on. */
  function Replay(history: seq<Message>, events: seq<ReadEvent>, i: nat, submitted: nat, errors: seq<string>,
                  tools: seq<ToolDefinition>, backends: nat -> Backend, runs: nat -> ToolRunner): Session
    requires i <= |events|
    decreases |events| - i
  {
    if i == |events| then Session(history, submitted, errors, i, Waiting)
    else
      match Advance(history, events[i], submitted, tools, backends, runs)
      case Leave(exit) => Session(history, submitted, errors, i + 1, exit)
      case Next(h, n, reports) => Replay(h, events, i + 1, n, errors + reports, tools, backends, runs)
  }

  /** One event of the interactive loop, as the imperative loop takes it. */
  lemma ReplayUnfold(history: seq<Message>, events: seq<ReadEvent>, i: nat, submitted: nat, errors: seq<string>,
                     tools: seq<ToolDefinition>, backends: nat -> Backend, runs: nat -> ToolRunner)
    requires i < |events|
    ensures var step := Advance(history, events[i], submitted, tools, backends, runs);
      Replay(history, events, i, submitted, errors, tools, backends, runs)
        == if step.Leave? then Session(history, submitted, errors, i + 1, step.exit)
           else Replay(step.history, events, i + 1, step.submitted, errors + step.reports, tools, backends, runs)
  {
  }

  /** The tool runners of a session whose `n`-th input sees executor
      `envs(n)`. */
  function SessionRunners(parse: JsonParser, envs: nat -> Environment): nat -> ToolRunner {
    n => Runner(parse, envs(n))
  }

  /** The interactive loop over all of `events`, from a fresh session. */
  function SessionOf(events: seq<ReadEvent>, backends: nat -> Backend, parse: JsonParser, envs: nat -> Environment): Session {
    Replay([SystemMessage(SystemPrompt)], events, 0, 0, [], ToolDefinitions(), backends, SessionRunners(parse, envs))
  }

  /** One event keeps the history well formed and its first message. */
  lemma AdvanceWellFormed(history: seq<Message>, event: ReadEvent, submitted: nat,
                          tools: seq<ToolDefinition>, backends: nat -> Backend, runs: nat -> ToolRunner)
    requires WellFormedHistory(history)
    ensures var step := Advance(history, event, submitted, tools, backends, runs);
      step.Next? ==> WellFormedHistory(step.history) && step.history[0] == history[0]
  {
    if event.Line? {
      match Classify(event.text)
      case Skip =>
      case Quit =>
      case ClearHistory => TruncatedWellFormed(history);
      case Submit(input) =>
        TurnWellFormed(history, input, tools, backends(submitted), runs(submitted));
        TurnKeepsFirst(history, input, tools, backends(submitted), runs(submitted));
    }
  }

  /** Every history a session goes through is well formed, and the system
      message stays first. */
  lemma {:induction false} ReplayWellFormed(history: seq<Message>, events: seq<ReadEvent>, i: nat, submitted: nat, errors: seq<string>,
                                            tools: seq<ToolDefinition>, backends: nat -> Backend, runs: nat -> ToolRunner)
    requires i <= |events| && WellFormedHistory(history)
    ensures var s := Replay(history, events, i, submitted, errors, tools, backends, runs);
      WellFormedHistory(s.history) && s.history[0] == history[0]
    decreases |events| - i
  {
    if i < |events| {
      AdvanceWellFormed(history, events[i], submitted, tools, backends, runs);
      match Advance(history, events[i], submitted, tools, backends, runs)
      case Leave(exit) =>
      case Next(h, n, reports) => ReplayWellFormed(h, events, i + 1, n, errors + reports, tools, backends, runs);
    }
  }

  /** A session started afresh keeps the system prompt as its first message
      and its history well formed, whatever is typed. */
  lemma SessionKeepsSystemPrompt(events: seq<ReadEvent>, backends: nat -> Backend, parse: JsonParser, envs: nat -> Environment)
    ensures WellFormedHistory(SessionOf(events, backends, parse, envs).history)
    ensures SessionOf(events, backends, parse, envs).history[0] == SystemMessage(SystemPrompt)
  {
    ReplayWellFormed([SystemMessage(SystemPrompt)], events, 0, 0, [], ToolDefinitions(), backends, SessionRunners(parse, envs));
  }

  /** `clear` leaves only the system message, whatever came before. */
  lemma ClearLeavesSystemMessage(history: seq<Message>, events: seq<ReadEvent>, i: nat, submitted: nat, errors: seq<string>,
                                 tools: seq<ToolDefinition>, backends: nat -> Backend, runs: nat -> ToolRunner)
    requires i < |events| && events[i].Line? && Trim(events[i].text) == "clear" && |history| >= 1
    ensures Replay(history, events, i, submitted, errors, tools, backends, runs)
         == Replay([history[0]], events, i + 1, submitted, errors, tools, backends, runs)
  {
    assert Classify(events[i].text) == ClearHistory;
    assert Truncated(history) == [history[0]] by {
      if |history| > 1 {
        assert history[..1] == [history[0]];
      }
    }
    assert Advance(history, events[i], submitted, tools, backends, runs) == Next([history[0]], submitted, []);
    assert errors + [] == errors;
  }

  /** `exit`, `quit`, end of input and a read error end the session at once:
      nothing after them is read and the history is left as it was. */
  lemma LeavingStopsReading(history: seq<Message>, events: seq<ReadEvent>, i: nat, submitted: nat, errors: seq<string>,
                            tools: seq<ToolDefinition>, backends: nat -> Backend, runs: nat -> ToolRunner)
    requires i < |events|
    requires events[i].Eof? || events[i].ReadFailed?
          || (events[i].Line? && (Trim(events[i].text) == "exit" || Trim(events[i].text) == "quit"))
    ensures var s := Replay(history, events, i, submitted, errors, tools, backends, runs);
      && s.history == history && s.consumed == i + 1 && s.submitted == submitted && s.errors == errors
      && s.exit != Waiting
  {
    if events[i].Line? {
      assert Classify(events[i].text) == Quit;
    }
  }

  /** Blank lines and interrupts are consumed without effect. */
  lemma IdleEventsChangeNothing(history: seq<Message>, events: seq<ReadEvent>, i: nat, submitted: nat, errors: seq<string>,
                                tools: seq<ToolDefinition>, backends: nat -> Backend, runs: nat -> ToolRunner)
    requires i < |events|
    requires events[i].Interrupted? || (events[i].Line? && Trim(events[i].text) == "")
    ensures Replay(history, events, i, submitted, errors, tools, backends, runs)
         == Replay(history, events, i + 1, submitted, errors, tools, backends, runs)
  {
    if events[i].Line? {
      assert Classify(events[i].text) == Skip;
    }
    assert errors + [] == errors;
  }

  /** A failed input is reported once on the error stream, and the session
      goes on with the history as the failed turn left it: the input stays,
      together with whatever tool rounds completed before the failure. */
  lemma FailedInputIsReported(history: seq<Message>, events: seq<ReadEvent>, i: nat, submitted: nat, errors: seq<string>,
                              tools: seq<ToolDefinition>, backends: nat -> Backend, runs: nat -> ToolRunner)
    requires i < |events| && events[i].Line? && Classify(events[i].text).Submit?
    requires RunTurn(history, Classify(events[i].text).input, tools, backends(submitted), runs(submitted)).stop.BackendFailed?
    ensures var input := Classify(events[i].text).input;
      var t := RunTurn(history, input, tools, backends(submitted), runs(submitted));
      && IsPrefix(history + [UserMessage(input)], t.history)
      && Replay(history, events, i, submitted, errors, tools, backends, runs)
         == Replay(t.history, events, i + 1, submitted + 1, errors + [FailedInputReport], tools, backends, runs)
  {
    var input := Classify(events[i].text).input;
    TurnShape(history, input, tools, backends(submitted), runs(submitted));
  }

  // ---------------------------------------------------------------------
  // The session object

  /** The error of a failed input: the context the failure was reported
      with and the backend's own error under it. */
  datatype InputError = InputError(context: string, cause: string)

  class Repl {
    /** The conversation so far, sent whole with every backend call. */
    var messages: seq<Message>

    /** The history is well formed. That the first message stays the
        system prompt is `SessionKeepsSystemPrompt`. */
    ghost predicate Valid()
      reads this
    {
      WellFormedHistory(messages)
    }

    /** A session starts with the system prompt alone. */
    constructor ()
      ensures Valid() && messages == [SystemMessage(SystemPrompt)]
    {
      messages := [SystemMessage(SystemPrompt)];
    }

    /** `clear`: keep the system message only. */
    method Clear()
      requires Valid()
      modifies this
      ensures Valid() && messages == [old(messages)[0]]
    {
      messages := messages[..1];
    }

    /** Answer each of `calls` in order, appending one Tool message per call;
        the `j`-th call is dispatched as number `first + j`. */
    method AnswerToolCalls(calls: seq<ToolCall>, run: ToolRunner, first: nat)
      modifies this
      ensures messages == old(messages) + ToolReplies(calls, run, first)
    {
      var j := 0;
      while j < |calls|
        invariant 0 <= j <= |calls|
        invariant messages == old(messages) + ToolReplies(calls[..j], run, first)
      {
        var call := calls[j];
        var text := run(first + j, call);
        messages := messages + [ToolMessage(text, call.id)];
        assert calls[..j + 1][..j] == calls[..j];
        j := j + 1;
      }
      assert calls[..j] == calls;
    }

    /** One tool round: record the calls on an Assistant message, then
        answer each of them. */
    method ToolRound(answer: Result<ChatResponse, string>, run: ToolRunner, dispatched: nat)
      requires answer.Success? && answer.value.tool_calls.Some?
      modifies this
      ensures var round := PlayRound(old(messages), answer, run, dispatched);
        && round.Continue?
        && messages == round.next
        && round.dispatched == dispatched + |answer.value.tool_calls.value|
    {
      var calls := answer.value.tool_calls.value;
      messages := messages + [AssistantWithCalls(answer.value.content, calls)];
      AnswerToolCalls(calls, run, dispatched);
    }

    /** One iteration of the agent loop: ask the backend, then either play
        the tool round (and go on) or finish the turn. */
    method Iterate(iteration: nat, ghost requests: seq<ChatRequest>, tools: seq<ToolDefinition>,
                   backend: Backend, run: ToolRunner, dispatched: nat)
      returns (outcome: Option<Result<(), InputError>>, next: nat)
      requires iteration < MaxIterations
      modifies this
      ensures var round := PlayRound(old(messages), backend(iteration, ChatRequest(old(messages), Some(tools))), run, dispatched);
        && (outcome.None? <==> round.Continue?)
        && (outcome.None? ==> messages == round.next && next == round.dispatched)
      ensures var turn := AgentLoop(old(messages), iteration, requests, tools, backend, run, dispatched);
        && (outcome.None? ==>
              AgentLoop(messages, iteration + 1, requests + [ChatRequest(old(messages), Some(tools))],
                        tools, backend, run, next) == turn)
        && (outcome.Some? ==>
              && messages == turn.history
              && (outcome.value.Failure? <==> turn.stop.BackendFailed?)
              && (turn.stop.BackendFailed? ==> outcome.value == Failure(InputError(BackendContext, turn.stop.cause))))
    {
      var request := ChatRequest(messages, Some(tools));
      var answer := backend(iteration, request);
      AgentLoopUnfold(messages, iteration, requests, tools, backend, run, dispatched);
      if answer.Failure? {
        return Some(Failure(InputError(BackendContext, answer.error))), dispatched;
      }
      var response := answer.value;
      if response.tool_calls.Some? {
        ToolRound(answer, run, dispatched);
        return None, dispatched + |response.tool_calls.value|;
      }
      if response.content != "" {
        messages := messages + [AssistantMessage(response.content)];
      }
      return Some(Success(())), dispatched;
    }

    /** The agent loop on the history as it stands, with catalog `tools`:
        the history afterwards is the one `AgentLoop` describes, and the
        loop fails exactly when a backend call failed. */
    method Converse(tools: seq<ToolDefinition>, backend: Backend, run: ToolRunner)
      returns (r: Result<(), InputError>)
      modifies this
      ensures var t := AgentLoop(old(messages), 0, [], tools, backend, run, 0);
        && messages == t.history
        && (r.Failure? <==> t.stop.BackendFailed?)
        && (t.stop.BackendFailed? ==> r == Failure(InputError(BackendContext, t.stop.cause)))
    {
      ghost var turn := AgentLoop(messages, 0, [], tools, backend, run, 0);
      ghost var requests: seq<ChatRequest> := [];
      var dispatched: nat := 0;
      var iteration: nat := 0;
      while iteration < MaxIterations
        invariant iteration <= MaxIterations
        invariant AgentLoop(messages, iteration, requests, tools, backend, run, dispatched) == turn
      {
        ghost var before := messages;
        var outcome;
        outcome, dispatched := Iterate(iteration, requests, tools, backend, run, dispatched);
        if outcome.Some? {
          return outcome.value;
        }
        requests := requests + [ChatRequest(before, Some(tools))];
        iteration := iteration + 1;
      }
      return Success(());
    }

    /** `process_input` with the catalog `tools` and the tool runner `run`:
        append the input as a User message, then run the agent loop. */
    method Submit(input: string, tools: seq<ToolDefinition>, backend: Backend, run: ToolRunner)
      returns (r: Result<(), InputError>)
      requires Valid()
      modifies this
      ensures Valid()
      ensures var t := RunTurn(old(messages), input, tools, backend, run);
        && messages == t.history
        && (r.Failure? <==> t.stop.BackendFailed?)
        && (t.stop.BackendFailed? ==> r == Failure(InputError(BackendContext, t.stop.cause)))
    {
      ghost var history := messages;
      TurnWellFormed(history, input, tools, backend, run);
      messages := messages + [UserMessage(input)];
      r := Converse(tools, backend, run);
    }

    /** `process_input`: the turn on the catalog of `get_tool_definitions`,
        each tool call dispatched by `execute_tool` against `env`. */
    method ProcessInput(input: string, backend: Backend, parse: JsonParser, env: Environment)
      returns (r: Result<(), InputError>)
      requires Valid()
      modifies this
      ensures Valid()
      ensures var t := RunTurn(old(messages), input, ToolDefinitions(), backend, Runner(parse, env));
        && messages == t.history
        && (r.Failure? <==> t.stop.BackendFailed?)
        && (t.stop.BackendFailed? ==> r == Failure(InputError(BackendContext, t.stop.cause)))
    {
      r := Submit(input, ToolDefinitions(), backend, Runner(parse, env));
    }

    /** One event of `run`: the step `Advance` describes. */
    method Handle(event: ReadEvent, submitted: nat, tools: seq<ToolDefinition>,
                  backends: nat -> Backend, runs: nat -> ToolRunner)
      returns (next: nat, reports: seq<string>, exit: Option<Exit>)
      requires Valid()
      modifies this
      ensures Valid()
      ensures var step := Advance(old(messages), event, submitted, tools, backends, runs);
        if step.Leave? then exit == Some(step.exit) && messages == old(messages)
        else exit == None && step == Next(messages, next, reports)
    {
      next, reports, exit := submitted, [], None;
      match event {
        case Interrupted =>
        case Eof =>
          exit := Some(EndOfInput);
        case ReadFailed(m) =>
          exit := Some(ReadError(m));
        case Line(text) =>
          match Classify(text) {
            case Skip =>
            case Quit =>
              exit := Some(QuitCommand);
            case ClearHistory =>
              ghost var before := messages;
              Clear();
              TruncatedWellFormed(before);
            case Submit(input) =>
              var r := Submit(input, tools, backends(submitted), runs(submitted));
              if r.Failure? {
                reports := ["Error: " + r.error.context];
              }
              next := submitted + 1;
          }
      }
    }

    /** The loop of `run` over a sequence of read events, with the catalog
        `tools` and the `n`-th input's tool runner `runs(n)`: the state
        afterwards is the one `Replay` describes. */
    method ReadLoop(events: seq<ReadEvent>, tools: seq<ToolDefinition>, backends: nat -> Backend, runs: nat -> ToolRunner)
      returns (errors: seq<string>, consumed: nat, exit: Exit)
      requires Valid()
      modifies this
      ensures Valid()
      ensures var s := Replay(old(messages), events, 0, 0, [], tools, backends, runs);
        s == Session(messages, s.submitted, errors, consumed, exit)
    {
      ghost var session := Replay(messages, events, 0, 0, [], tools, backends, runs);
      errors := [];
      var submitted: nat := 0;
      var i := 0;
      while i < |events|
        invariant 0 <= i <= |events|
        invariant Valid()
        invariant Replay(messages, events, i, submitted, errors, tools, backends, runs) == session
        decreases |events| - i
      {
        ReplayUnfold(messages, events, i, submitted, errors, tools, backends, runs);
        var next, reports, leave := Handle(events[i], submitted, tools, backends, runs);
        if leave.Some? {
          return errors, i + 1, leave.value;
        }
        errors := errors + reports;
        submitted := next;
        i := i + 1;
      }
      return errors, i, Waiting;
    }

    /** `run`: the read loop on the catalog of `get_tool_definitions`, the
        `n`-th input's tool calls dispatched against `envs(n)`. */
    method Run(events: seq<ReadEvent>, backends: nat -> Backend, parse: JsonParser, envs: nat -> Environment)
      returns (errors: seq<string>, consumed: nat, exit: Exit)
      requires Valid()
      modifies this
      ensures Valid()
      ensures var s := Replay(old(messages), events, 0, 0, [], ToolDefinitions(), backends, SessionRunners(parse, envs));
        s == Session(messages, s.submitted, errors, consumed, exit)
    {
      errors, consumed, exit := ReadLoop(events, ToolDefinitions(), backends, SessionRunners(parse, envs));
    }
  }
}
