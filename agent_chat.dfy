/**
 * The chat endpoint of backend/app/api/v1/chat.py: the request messages are
 * turned into the model's message history, then the model is called at most
 * five times; each reply that asks for tools has every requested tool run
 * and logged, and the first reply that asks for none is the answer. The
 * model and the tools are parameters; an exception from the model ends the
 * request with an error.
 */
module AgentChat {
  import opened Wrappers

  /** A request message: `role`, `content`, and the optional tool call `id` and tool `name`. */
  datatype MessageItem = MessageItem(role: string, content: string, id: Option<string>, name: Option<string>)

  /** A tool call asked for by the model: the tool's name, its arguments and the call id. */
  datatype ToolCall = ToolCall(name: string, args: string, id: string)

  /** The model's message history. */
  datatype ChatMessage =
    | HumanMessage(content: string)
    | AiMessage(content: string, calls: seq<ToolCall>)
    | ToolMessage(content: string, callId: Option<string>, toolName: Option<string>)

  /** A reply of the model: its text and the tool calls it asks for. */
  datatype Reply = Reply(content: string, calls: seq<ToolCall>)

  /**
   * A registered tool: its `name` attribute and its `__name__` attribute,
   * each when it has one, and what running it on the arguments returns
   * (as text) or raises.
   */
  datatype Tool = Tool(name: Option<string>, funcName: Option<string>, run: string -> Result<string>)

  /** One `tool_logs` entry. */
  datatype ToolLog = ToolLog(name: string, args: string, result: string)

  datatype ChatResponse = ChatResponse(response: string, toolLogs: seq<ToolLog>)

  const MaxSteps := 5

  const ToolNotFound := "Error: Tool not found."

  // ---------------------------------------------------------------------
  // Message history
  // ---------------------------------------------------------------------

  /** The roles that are carried over. */
  predicate Kept(m: MessageItem) {
    m.role == "user" || m.role == "assistant" || m.role == "tool"
  }

  /** The history entries made for one request message: one for a kept role, none otherwise. */
  function Converted(m: MessageItem): (r: seq<ChatMessage>)
    ensures |r| == if Kept(m) then 1 else 0
    ensures m.role == "user" ==> r == [HumanMessage(m.content)]
    ensures m.role == "assistant" ==> r == [AiMessage(m.content, [])]
    ensures m.role == "tool" ==> r == [ToolMessage(m.content, m.id, m.name)]
  {
    if m.role == "user" then [HumanMessage(m.content)]
    else if m.role == "assistant" then [AiMessage(m.content, [])]
    else if m.role == "tool" then [ToolMessage(m.content, m.id, m.name)]
    else []
  }

  function History(items: seq<MessageItem>): seq<ChatMessage> {
    if items == [] then [] else History(items[..|items| - 1]) + Converted(items[|items| - 1])
  }

  /** The loop that rebuilds the history. */
  method ReconstructHistory(items: seq<MessageItem>) returns (messages: seq<ChatMessage>)
    ensures messages == History(items)
  {
    messages := [];
    for i := 0 to |items|
      invariant messages == History(items[..i])
    {
      assert items[..i + 1][..i] == items[..i];
      messages := messages + Converted(items[i]);
    }
    assert items[..|items|] == items;
  }

  /** The history of a concatenation is the concatenation of the histories: order is kept. */
  lemma {:induction false} HistoryConcat(a: seq<MessageItem>, b: seq<MessageItem>)
    ensures History(a + b) == History(a) + History(b)
    decreases |b|
  {
    if b == [] {
      assert a + b == a;
    } else {
      var b' := b[..|b| - 1];
      assert (a + b)[..|a + b| - 1] == a + b';
      assert (a + b)[|a + b| - 1] == b[|b| - 1];
      HistoryConcat(a, b');
      calc {
        History(a + b);
        History(a + b') + Converted(b[|b| - 1]);
        History(a) + History(b') + Converted(b[|b| - 1]);
        History(a) + (History(b') + Converted(b[|b| - 1]));
      }
    }
  }

  /**
   * Nothing is added and nothing reordered: the history is never longer
   * than the request, and it is exactly as long iff every role is kept.
   */
  lemma {:induction false} HistoryLength(items: seq<MessageItem>)
    ensures |History(items)| <= |items|
    ensures |History(items)| == |items| <==> forall i :: 0 <= i < |items| ==> Kept(items[i])
  {
    if items != [] {
      var front := items[..|items| - 1];
      HistoryLength(front);
      if forall i :: 0 <= i < |front| ==> Kept(front[i]) {
      } else {
        var i :| 0 <= i < |front| && !Kept(front[i]);
        assert !Kept(items[i]);
      }
    }
  }

  /** A request made only of user messages becomes the same number of human messages, in order. */
  lemma {:induction false} UserMessagesBecomeHuman(items: seq<MessageItem>)
    requires forall i :: 0 <= i < |items| ==> items[i].role == "user"
    ensures |History(items)| == |items|
    ensures forall i :: 0 <= i < |items| ==> History(items)[i] == HumanMessage(items[i].content)
  {
    if items != [] {
      UserMessagesBecomeHuman(items[..|items| - 1]);
    }
  }

  // ---------------------------------------------------------------------
  // Tools
  // ---------------------------------------------------------------------

  /** `t.name == tool_name`, else `t.__name__ == tool_name`, for attributes that exist. */
  predicate Matches(t: Tool, toolName: string) {
    t.name == Some(toolName) || t.funcName == Some(toolName)
  }

  /** The index of the first tool from `i` on that matches the name. */
  function FirstMatch(tools: seq<Tool>, toolName: string, i: nat): (r: Option<nat>)
    decreases |tools| - i
    ensures r.Some? ==> i <= r.value < |tools| && Matches(tools[r.value], toolName)
    ensures r.Some? ==> forall j :: i <= j < r.value ==> !Matches(tools[j], toolName)
    ensures r.None? ==> forall j :: i <= j < |tools| ==> !Matches(tools[j], toolName)
  {
    if i >= |tools| then None
    else if Matches(tools[i], toolName) then Some(i)
    else FirstMatch(tools, toolName, i + 1)
  }

  /** The loop over the tools that stops at the first match. */
  method SelectTool(tools: seq<Tool>, toolName: string) returns (selected: Option<nat>)
    ensures selected == FirstMatch(tools, toolName, 0)
  {
    var i := 0;
    while i < |tools|
      invariant 0 <= i <= |tools|
      invariant FirstMatch(tools, toolName, 0) == FirstMatch(tools, toolName, i)
    {
      if Matches(tools[i], toolName) {
        return Some(i);
      }
      i := i + 1;
    }
    return None;
  }

  /** The result text of one call: the tool's output, its exception as "Error: …", or the not-found message. */
  function Output(tools: seq<Tool>, call: ToolCall): string {
    match FirstMatch(tools, call.name, 0)
    case None => ToolNotFound
    case Some(k) =>
      match tools[k].run(call.args)
      case Ok(text) => text
      case Crash(e) => "Error: " + e
  }

  /**
   * The not-found message is given exactly when no tool has the name; a
   * tool that raises yields its message behind "Error: "; otherwise the
   * first matching tool's output.
   */
  lemma OutputCases(tools: seq<Tool>, call: ToolCall)
    ensures (forall j :: 0 <= j < |tools| ==> !Matches(tools[j], call.name)) ==> Output(tools, call) == ToolNotFound
    ensures forall k :: 0 <= k < |tools| && Matches(tools[k], call.name) && (forall j :: 0 <= j < k ==> !Matches(tools[j], call.name)) ==>
      Output(tools, call) == match tools[k].run(call.args) case Ok(text) => text case Crash(e) => "Error: " + e
  {
    var r := FirstMatch(tools, call.name, 0);
    if r.Some? {
      forall k | 0 <= k < |tools| && Matches(tools[k], call.name) && (forall j :: 0 <= j < k ==> !Matches(tools[j], call.name))
        ensures k == r.value
      {
      }
    }
  }

  function Log(tools: seq<Tool>, call: ToolCall): ToolLog {
    ToolLog(call.name, call.args, Output(tools, call))
  }

  function Answer(tools: seq<Tool>, call: ToolCall): ChatMessage {
    ToolMessage(Output(tools, call), Some(call.id), Some(call.name))
  }

  /** One log entry per call, in call order. */
  function Logs(tools: seq<Tool>, calls: seq<ToolCall>): (logs: seq<ToolLog>)
    ensures |logs| == |calls|
    ensures forall i :: 0 <= i < |calls| ==> logs[i] == Log(tools, calls[i])
  {
    seq(|calls|, i requires 0 <= i < |calls| => Log(tools, calls[i]))
  }

  /** One tool message per call, in call order. */
  function Answers(tools: seq<Tool>, calls: seq<ToolCall>): (answers: seq<ChatMessage>)
    ensures |answers| == |calls|
    ensures forall i :: 0 <= i < |calls| ==> answers[i] == Answer(tools, calls[i])
  {
    seq(|calls|, i requires 0 <= i < |calls| => Answer(tools, calls[i]))
  }

  /** The loop over the tool calls of one reply. */
  method RunToolCalls(tools: seq<Tool>, calls: seq<ToolCall>) returns (logs: seq<ToolLog>, answers: seq<ChatMessage>)
    ensures logs == Logs(tools, calls) && answers == Answers(tools, calls)
  {
    logs := [];
    answers := [];
    for i := 0 to |calls|
      invariant logs == Logs(tools, calls[..i]) && answers == Answers(tools, calls[..i])
    {
      var selected := SelectTool(tools, calls[i].name);
      var result := ToolNotFound;
      if selected.Some? {
        var outcome := tools[selected.value].run(calls[i].args);
        result := if outcome.Ok? then outcome.value else "Error: " + outcome.error;
      }
      logs := logs + [ToolLog(calls[i].name, calls[i].args, result)];
      answers := answers + [ToolMessage(result, Some(calls[i].id), Some(calls[i].name))];
    }
    assert calls[..|calls|] == calls;
  }

  // ---------------------------------------------------------------------
  // Agent loop
  // ---------------------------------------------------------------------

  /** The history after a reply that asks for tools: the reply, then one tool message per call. */
  function Next(messages: seq<ChatMessage>, tools: seq<Tool>, reply: Reply): seq<ChatMessage> {
    messages + [AiMessage(reply.content, reply.calls)] + Answers(tools, reply.calls)
  }

  /** Earlier log entries in front of a later outcome; an error drops them. */
  function Prefixed(logs: seq<ToolLog>, r: Result<ChatResponse>): Result<ChatResponse> {
    if r.Crash? then r else Ok(r.value.(toolLogs := logs + r.value.toolLogs))
  }

  /** The outcome of the agent loop with `fuel` model calls left. */
  function Agent(messages: seq<ChatMessage>, tools: seq<Tool>, model: seq<ChatMessage> -> Result<Reply>, fuel: nat): Result<ChatResponse>
    decreases fuel
  {
    if fuel == 0 then Ok(ChatResponse("", []))
    else match model(messages)
      case Crash(e) => Crash(e)
      case Ok(reply) =>
        if reply.calls == [] then Ok(ChatResponse(reply.content, []))
        else Prefixed(Logs(tools, reply.calls), Agent(Next(messages, tools, reply), tools, model, fuel - 1))
  }

  /** How many times the agent loop calls the model: at least once, and never more than the fuel. */
  function Invocations(messages: seq<ChatMessage>, tools: seq<Tool>, model: seq<ChatMessage> -> Result<Reply>, fuel: nat): (n: nat)
    decreases fuel
    ensures n <= fuel
    ensures fuel > 0 ==> n >= 1
  {
    if fuel == 0 then 0
    else match model(messages)
      case Crash(_) => 1
      case Ok(reply) =>
        if reply.calls == [] then 1 else 1 + Invocations(Next(messages, tools, reply), tools, model, fuel - 1)
  }

  lemma PrefixedNothing(r: Result<ChatResponse>)
    ensures Prefixed([], r) == r
  {
    if r.Ok? {
      assert [] + r.value.toolLogs == r.value.toolLogs;
    }
  }

  lemma PrefixedTwice(a: seq<ToolLog>, b: seq<ToolLog>, r: Result<ChatResponse>)
    ensures Prefixed(a, Prefixed(b, r)) == Prefixed(a + b, r)
  {
    if r.Ok? {
      assert a + (b + r.value.toolLogs) == (a + b) + r.value.toolLogs;
    }
  }

  /**
   * `chat_endpoint`: the history is rebuilt, then the model is called until
   * a reply asks for no tool or five calls were made; the answer is that
   * reply's text, or "" after five tool rounds, with every tool call logged.
   * `steps` is the number of model calls.
   */
  method ChatEndpoint(items: seq<MessageItem>, tools: seq<Tool>, model: seq<ChatMessage> -> Result<Reply>)
    returns (r: Result<ChatResponse>, steps: nat)
    ensures r == Agent(History(items), tools, model, MaxSteps)
    ensures steps == Invocations(History(items), tools, model, MaxSteps) && 1 <= steps <= MaxSteps
  {
    var messages := ReconstructHistory(items);
    var toolLogs: seq<ToolLog> := [];
    steps := 0;
    PrefixedNothing(Agent(messages, tools, model, MaxSteps));
    while steps < MaxSteps
      invariant steps <= MaxSteps
      invariant Agent(History(items), tools, model, MaxSteps) == Prefixed(toolLogs, Agent(messages, tools, model, MaxSteps - steps))
      invariant Invocations(History(items), tools, model, MaxSteps) == steps + Invocations(messages, tools, model, MaxSteps - steps)
    {
      steps := steps + 1;
      var reply := model(messages);
      if reply.Crash? {
        return Crash(reply.error), steps;
      }
      var calls := reply.value.calls;
      if calls == [] {
        assert toolLogs + [] == toolLogs;
        return Ok(ChatResponse(reply.value.content, toolLogs)), steps;
      }
      var logs, answers := RunToolCalls(tools, calls);
      PrefixedTwice(toolLogs, logs, Agent(Next(messages, tools, reply.value), tools, model, MaxSteps - steps));
      messages := messages + [AiMessage(reply.value.content, calls)] + answers;
      toolLogs := toolLogs + logs;
    }
    assert toolLogs + [] == toolLogs;
    r := Ok(ChatResponse("", toolLogs));
  }

  /** The first reply that asks for no tool is the answer, with no further call and no log entry. */
  lemma PlainReplyEnds(messages: seq<ChatMessage>, tools: seq<Tool>, model: seq<ChatMessage> -> Result<Reply>, fuel: nat, text: string)
    requires fuel > 0 && model(messages) == Ok(Reply(text, []))
    ensures Agent(messages, tools, model, fuel) == Ok(ChatResponse(text, []))
    ensures Invocations(messages, tools, model, fuel) == 1
  {
  }

  /**
   * When every reply asks for tools, every call is made and the answer is
   * the empty text.
   */
  lemma {:induction false} ToolsEveryRound(messages: seq<ChatMessage>, tools: seq<Tool>, model: seq<ChatMessage> -> Result<Reply>, fuel: nat)
    requires forall m :: model(m).Ok? && model(m).value.calls != []
    ensures Agent(messages, tools, model, fuel).Ok?
    ensures Agent(messages, tools, model, fuel).value.response == ""
    ensures Invocations(messages, tools, model, fuel) == fuel
    decreases fuel
  {
    if fuel > 0 {
      var reply := model(messages).value;
      ToolsEveryRound(Next(messages, tools, reply), tools, model, fuel - 1);
    }
  }

  /**
   * Each tool round logs its calls in order ahead of the later rounds: a
   * successful outcome's log starts with the first reply's calls.
   */
  lemma FirstRoundLogged(messages: seq<ChatMessage>, tools: seq<Tool>, model: seq<ChatMessage> -> Result<Reply>, fuel: nat)
    requires fuel > 0 && model(messages).Ok? && Agent(messages, tools, model, fuel).Ok?
    ensures Logs(tools, model(messages).value.calls) <= Agent(messages, tools, model, fuel).value.toolLogs
  {
  }
}
