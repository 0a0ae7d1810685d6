/** One user turn (`processQuery`): seed the conversation with the query,
    offer the tool catalogue, and either run every requested tool call in
    order, each followed by a plain follow-up completion, or pass the text
    answer through. The language model and the tool server are outside the
    client; what they answer is supplied by a `World`. */
module Orchestrator {
  import opened Wrappers
  import opened Json
  import opened Text
  import opened Types
  import opened Catalogue
  import opened ArgumentRepair

  /** A tool call the model requests: function name and raw argument text. */
  datatype ToolCall = ToolCall(name: string, arguments: string)

  /** The message of a model response: tool calls, text content, both or
      neither (`content` is `None` whenever it is not a string). */
  datatype AssistantMessage = AssistantMessage(toolCalls: Option<seq<ToolCall>>, content: Option<string>)

  /** What one gateway call produced: a message, or an error it threw. */
  datatype Reply = Answered(message: AssistantMessage) | Failed(error: string)

  /** What one `callTool` produced: the result content, or an error it threw. */
  datatype CallOutcome = Returned(content: string) | Threw(error: string)

  /** A gateway request: the conversation so far, and the advertised tools
      when any are offered. */
  datatype Request = Request(messages: seq<Message>, tools: Option<seq<ToolDefinition>>)

  /** A tool invocation sent to the server: tool name and parsed arguments. */
  datatype Invocation = Invocation(name: string, arguments: JsonValue)

  /** Everything outside the client during one turn: the JSON library, the
      first model reply, the outcome of the k-th tool invocation and the
      reply to the k-th follow-up request (counting from 0). */
  datatype World = World(
    json: JsonCodec,
    firstReply: Reply,
    toolOutcome: nat -> CallOutcome,
    followUpReply: nat -> Reply)

  /** What a turn has done so far: the conversation, the output lines, the
      gateway requests and the tool invocations, each in order. */
  datatype Turn = Turn(
    messages: seq<Message>,
    lines: seq<string>,
    requests: seq<Request>,
    invocations: seq<Invocation>)

  /** Why a turn ended without an answer: an error thrown by the gateway or
      by the tool server escapes the turn. */
  datatype TurnError = GatewayFailed(error: string) | ToolFailed(toolName: string, error: string)

  /** The text a turn returns, with the record of what it did. */
  datatype Answer = Answer(text: string, turn: Turn)

  /** The first model response asks for at least one tool. */
  predicate HasToolCalls(m: AssistantMessage)
  {
    m.toolCalls.Some? && |m.toolCalls.value| > 0
  }

  /** The trace line for one tool call. */
  function TraceLine(name: string, argumentsJson: string): string
  {
    "[Calling tool " + name + " with args " + argumentsJson + "]"
  }

  /** The output line for a follow-up answer: its content, or the empty
      string when the content is not a string. */
  function FollowUpLine(m: AssistantMessage): string
  {
    m.content.GetOr("")
  }

  /** The arguments the client sends with a tool call. */
  function CallArguments(call: ToolCall, world: World): JsonValue
  {
    ParseToolArguments(call.arguments, world.json)
  }

  /** The k-th tool call and its follow-up both complete. */
  predicate Succeeds(world: World, k: nat)
  {
    world.toolOutcome(k).Returned? && world.followUpReply(k).Answered?
  }

  /** The error that ends the turn at the k-th call, if any: the tool
      invocation fails first, otherwise the follow-up request may. */
  function FailureAt(call: ToolCall, k: nat, world: World): (e: Option<TurnError>)
    ensures e.None? <==> Succeeds(world, k)
  {
    match world.toolOutcome(k)
    case Threw(err) => Some(ToolFailed(call.name, err))
    case Returned(_) =>
      match world.followUpReply(k)
      case Failed(err) => Some(GatewayFailed(err))
      case Answered(_) => None
  }

  /** One iteration of the tool-call loop: parse the arguments, invoke the
      tool, record the trace line, append the result as a user message,
      request a follow-up without tools and record its text. */
  function Step(call: ToolCall, k: nat, t: Turn, world: World): (r: Result<Turn, TurnError>)
    ensures r.Ok? <==> Succeeds(world, k)
    ensures r.Err? ==> FailureAt(call, k, world) == Some(r.error)
  {
    var args := CallArguments(call, world);
    match world.toolOutcome(k)
    case Threw(err) => Err(ToolFailed(call.name, err))
    case Returned(content) =>
      var messages := t.messages + [Message(User, content)];
      match world.followUpReply(k)
      case Failed(err) => Err(GatewayFailed(err))
      case Answered(m) =>
        Ok(Turn(
             messages,
             t.lines + [TraceLine(call.name, world.json.stringify(args)), FollowUpLine(m)],
             t.requests + [Request(messages, None)],
             t.invocations + [Invocation(call.name, args)]))
  }

  /** The state after the first `n` tool calls have run from `seed`. It is
      an answer exactly when each of those calls and follow-ups completed;
      then every call added one user message, two lines, one request and one
      invocation, after what was there before. Otherwise the error is the
      one of the earliest call that failed. */
  function Dispatch(calls: seq<ToolCall>, n: nat, seed: Turn, world: World): (r: Result<Turn, TurnError>)
    requires n <= |calls|
    ensures r.Ok? <==> forall j :: 0 <= j < n ==> Succeeds(world, j)
    ensures r.Ok? ==>
              && |r.value.messages| == |seed.messages| + n && seed.messages <= r.value.messages
              && |r.value.lines| == |seed.lines| + 2 * n && seed.lines <= r.value.lines
              && |r.value.requests| == |seed.requests| + n && seed.requests <= r.value.requests
              && |r.value.invocations| == |seed.invocations| + n && seed.invocations <= r.value.invocations
    ensures r.Ok? ==> forall i :: |seed.messages| <= i < |r.value.messages| ==> r.value.messages[i].role == User
    ensures r.Err? ==> exists j :: 0 <= j < n && FailureAt(calls[j], j, world) == Some(r.error)
                                   && forall i :: 0 <= i < j ==> Succeeds(world, i)
    decreases n
  {
    if n == 0 then Ok(seed)
    else
      match Dispatch(calls, n - 1, seed, world)
      case Err(e) => Err(e)
      case Ok(t) => Step(calls[n - 1], n - 1, t, world)
  }

  /** The k-th call completed, and its contributions are at their places
      in `t` after what `seed` held: its trace and follow-up lines, the user
      message holding the tool result, a follow-up request carrying the
      conversation up to that message and no tools, and the invocation with
      the repaired arguments. */
  predicate ExchangeRecorded(t: Turn, seed: Turn, call: ToolCall, k: nat, world: World)
  {
    var args := CallArguments(call, world);
    && Succeeds(world, k)
    && |seed.lines| + 2 * k + 1 < |t.lines|
    && |seed.messages| + k < |t.messages|
    && |seed.requests| + k < |t.requests|
    && |seed.invocations| + k < |t.invocations|
    && t.lines[|seed.lines| + 2 * k] == TraceLine(call.name, world.json.stringify(args))
    && t.lines[|seed.lines| + 2 * k + 1] == FollowUpLine(world.followUpReply(k).message)
    && t.messages[|seed.messages| + k] == Message(User, world.toolOutcome(k).content)
    && t.requests[|seed.requests| + k] == Request(t.messages[..|seed.messages| + k + 1], None)
    && t.invocations[|seed.invocations| + k] == Invocation(call.name, args)
  }

  /** Every call before the n-th completed and left its exchange in the
      state after n calls. */
  lemma {:induction false} DispatchExchange(calls: seq<ToolCall>, n: nat, seed: Turn, world: World, k: nat)
    requires k < n <= |calls|
    requires Dispatch(calls, n, seed, world).Ok?
    ensures ExchangeRecorded(Dispatch(calls, n, seed, world).value, seed, calls[k], k, world)
    decreases n
  {
    DispatchLast(calls, n, seed, world);
    var p := Dispatch(calls, n - 1, seed, world).value;
    var t := Dispatch(calls, n, seed, world).value;
    StepExtends(calls[n - 1], n - 1, p, world);
    if k < n - 1 {
      DispatchExchange(calls, n - 1, seed, world, k);
      ExchangeKept(p, t, seed, calls[k], k, world);
    } else {
      ExchangeLast(p, seed, calls[k], k, world);
    }
  }

  /** The state after n calls is one step past the state after n - 1. */
  lemma DispatchLast(calls: seq<ToolCall>, n: nat, seed: Turn, world: World)
    requires 0 < n <= |calls|
    requires Dispatch(calls, n, seed, world).Ok?
    ensures Dispatch(calls, n - 1, seed, world).Ok?
    ensures Dispatch(calls, n, seed, world) == Step(calls[n - 1], n - 1, Dispatch(calls, n - 1, seed, world).value, world)
  {
  }

  /** Extending every record keeps an exchange where it was. */
  lemma ExchangeKept(p: Turn, t: Turn, seed: Turn, call: ToolCall, k: nat, world: World)
    requires ExchangeRecorded(p, seed, call, k, world)
    requires p.lines <= t.lines && p.messages <= t.messages
    requires p.requests <= t.requests && p.invocations <= t.invocations
    ensures ExchangeRecorded(t, seed, call, k, world)
  {
    var m := |seed.messages| + k + 1;
    assert t.messages[..m] == p.messages[..m];
    assert t.lines[|seed.lines| + 2 * k] == p.lines[|seed.lines| + 2 * k];
    assert t.lines[|seed.lines| + 2 * k + 1] == p.lines[|seed.lines| + 2 * k + 1];
    assert t.messages[m - 1] == p.messages[m - 1];
    assert t.requests[|seed.requests| + k] == p.requests[|seed.requests| + k];
    assert t.invocations[|seed.invocations| + k] == p.invocations[|seed.invocations| + k];
  }

  /** The step that runs the k-th call records its exchange. */
  lemma ExchangeLast(p: Turn, seed: Turn, call: ToolCall, k: nat, world: World)
    requires Step(call, k, p, world).Ok?
    requires |p.lines| == |seed.lines| + 2 * k && |p.messages| == |seed.messages| + k
    requires |p.requests| == |seed.requests| + k && |p.invocations| == |seed.invocations| + k
    ensures ExchangeRecorded(Step(call, k, p, world).value, seed, call, k, world)
  {
    var u := Step(call, k, p, world).value;
    StepExtends(call, k, p, world);
    assert u.messages[..|seed.messages| + k + 1] == u.messages;
  }

  /** A completed iteration appends to each record and changes nothing
      already there. */
  lemma StepExtends(call: ToolCall, k: nat, t: Turn, world: World)
    requires Step(call, k, t, world).Ok?
    ensures var u := Step(call, k, t, world).value;
            var args := CallArguments(call, world);
            && u.messages == t.messages + [Message(User, world.toolOutcome(k).content)]
            && u.lines == t.lines + [TraceLine(call.name, world.json.stringify(args)), FollowUpLine(world.followUpReply(k).message)]
            && u.requests == t.requests + [Request(u.messages, None)]
            && u.invocations == t.invocations + [Invocation(call.name, args)]
  {
  }

  /** Once a call fails, the turn ends with that failure whatever follows. */
  lemma {:induction false} DispatchStopsAtFailure(calls: seq<ToolCall>, k: nat, n: nat, seed: Turn, world: World)
    requires k <= n <= |calls|
    requires Dispatch(calls, k, seed, world).Err?
    ensures Dispatch(calls, n, seed, world) == Dispatch(calls, k, seed, world)
    decreases n - k
  {
    if k < n {
      DispatchStopsAtFailure(calls, k, n - 1, seed, world);
    }
  }

  /** The conversation a turn starts from and the first request it makes. */
  function Seed(query: string, tools: seq<Tool>): Turn
  {
    var messages := [Message(User, query)];
    Turn(messages, [], [Request(messages, Some(Advertise(tools)))], [])
  }

  /** `processQuery`. The conversation starts as one user message holding
      the query, and the first request offers the whole catalogue. A failed
      first request is the turn's error. If the reply asks for tools, the
      calls run in order and the turn answers exactly when all of them and
      their follow-ups complete, with two lines per call and one new user
      message per call; otherwise the error of the earliest failing call
      escapes. Without tool calls, string content is the answer, and a reply
      with neither answers with nothing. The answer is always the output
      lines joined by line feeds. */
  function ProcessQuery(query: string, tools: seq<Tool>, world: World): (r: Result<Answer, TurnError>)
    ensures world.firstReply.Failed? ==> r == Err(GatewayFailed(world.firstReply.error))
    ensures r.Ok? ==>
              && r.value.text == Join(r.value.turn.lines, "\n")
              && |r.value.turn.messages| >= 1 && r.value.turn.messages[0] == Message(User, query)
              && (forall i :: 0 <= i < |r.value.turn.messages| ==> r.value.turn.messages[i].role == User)
              && |r.value.turn.requests| >= 1
              && r.value.turn.requests[0] == Request([Message(User, query)], Some(Advertise(tools)))
    ensures world.firstReply.Answered? && HasToolCalls(world.firstReply.message) ==>
              var calls := world.firstReply.message.toolCalls.value;
              && (r.Ok? <==> forall j :: 0 <= j < |calls| ==> Succeeds(world, j))
              && (r.Ok? ==>
                    && |r.value.turn.lines| == 2 * |calls|
                    && |r.value.turn.messages| == 1 + |calls|
                    && |r.value.turn.requests| == 1 + |calls|
                    && |r.value.turn.invocations| == |calls|)
              && (r.Err? ==> exists j :: 0 <= j < |calls| && FailureAt(calls[j], j, world) == Some(r.error)
                                         && forall i :: 0 <= i < j ==> Succeeds(world, i))
    ensures world.firstReply.Answered? && !HasToolCalls(world.firstReply.message)
            && world.firstReply.message.content.Some? ==>
              var text := world.firstReply.message.content.value;
              r == Ok(Answer(text, Turn([Message(User, query)], [text], Seed(query, tools).requests, [])))
    ensures world.firstReply.Answered? && !HasToolCalls(world.firstReply.message)
            && world.firstReply.message.content.None? ==>
              r == Ok(Answer("", Seed(query, tools)))
  {
    var seed := Seed(query, tools);
    match world.firstReply
    case Failed(err) => Err(GatewayFailed(err))
    case Answered(m) =>
      if HasToolCalls(m) then
        var calls := m.toolCalls.value;
        match Dispatch(calls, |calls|, seed, world)
        case Err(e) => Err(e)
        case Ok(t) => Ok(Answer(Join(t.lines, "\n"), t))
      else if m.content.Some? then
        var t := Turn(seed.messages, [m.content.value], seed.requests, seed.invocations);
        Ok(Answer(Join(t.lines, "\n"), t))
      else
        Ok(Answer(Join(seed.lines, "\n"), seed))
  }

  /** In a turn that answered after tool calls, the k-th call produced the
      trace line `[Calling tool <name> with args <json>]` at line 2k and its
      follow-up text right after it; the (k+1)-th message is a user message
      holding the k-th tool result; the (k+1)-th request resends the
      conversation up to that message without tools; and the k-th
      invocation used the repaired arguments. */
  lemma ToolCallExchange(query: string, tools: seq<Tool>, world: World, k: nat)
    requires world.firstReply.Answered? && HasToolCalls(world.firstReply.message)
    requires k < |world.firstReply.message.toolCalls.value|
    requires ProcessQuery(query, tools, world).Ok?
    ensures Succeeds(world, k)
    ensures var t := ProcessQuery(query, tools, world).value.turn;
            var call := world.firstReply.message.toolCalls.value[k];
            var args := ParseToolArguments(call.arguments, world.json);
            && t.lines[2 * k] == TraceLine(call.name, world.json.stringify(args))
            && t.lines[2 * k + 1] == FollowUpLine(world.followUpReply(k).message)
            && t.messages[k + 1] == Message(User, world.toolOutcome(k).content)
            && t.requests[k + 1] == Request(t.messages[..k + 2], None)
            && t.invocations[k] == Invocation(call.name, args)
  {
    var calls := world.firstReply.message.toolCalls.value;
    DispatchExchange(calls, |calls|, Seed(query, tools), world, k);
  }

  /** The tool-call loop does not look at the first reply: two worlds that
      agree on everything else run the loop alike. */
  lemma {:induction false} DispatchIgnoresFirstReply(calls: seq<ToolCall>, n: nat, seed: Turn, world: World, other: World)
    requires n <= |calls|
    requires other.json == world.json && other.toolOutcome == world.toolOutcome
    requires other.followUpReply == world.followUpReply
    ensures Dispatch(calls, n, seed, other) == Dispatch(calls, n, seed, world)
    decreases n
  {
    if n > 0 {
      DispatchIgnoresFirstReply(calls, n - 1, seed, world, other);
    }
  }

  /** Tool calls take precedence over text: when the first reply asks for
      tools, its content does not affect the turn. */
  lemma ToolCallsTakePrecedence(query: string, tools: seq<Tool>, world: World, calls: seq<ToolCall>, content: Option<string>, other: Option<string>)
    requires |calls| > 0
    ensures ProcessQuery(query, tools, world.(firstReply := Answered(AssistantMessage(Some(calls), content))))
         == ProcessQuery(query, tools, world.(firstReply := Answered(AssistantMessage(Some(calls), other))))
  {
    var w1 := world.(firstReply := Answered(AssistantMessage(Some(calls), content)));
    var w2 := world.(firstReply := Answered(AssistantMessage(Some(calls), other)));
    DispatchIgnoresFirstReply(calls, |calls|, Seed(query, tools), w1, w2);
  }

  /** When no output line contains a line feed, splitting the answer on
      line feeds gives back the output lines. */
  lemma AnswerSplitsIntoLines(query: string, tools: seq<Tool>, world: World)
    requires ProcessQuery(query, tools, world).Ok?
    requires var lines := ProcessQuery(query, tools, world).value.turn.lines;
             |lines| > 0 && forall i :: 0 <= i < |lines| ==> '\n' !in lines[i]
    ensures var a := ProcessQuery(query, tools, world).value;
            Split(a.text, '\n') == a.turn.lines
  {
    SplitJoin(ProcessQuery(query, tools, world).value.turn.lines, '\n');
  }

  /** A reply with no tool calls and the text "42" makes the turn answer
      exactly "42". */
  lemma TextAnswerExample(query: string, tools: seq<Tool>, world: World)
    requires world.firstReply == Answered(AssistantMessage(None, Some("42")))
    ensures ProcessQuery(query, tools, world).Ok?
    ensures ProcessQuery(query, tools, world).value.text == "42"
  {
  }

  /** The turn as the client runs it: a loop over the requested calls that
      extends the conversation and the output in place, stopping at the
      first error. It computes the same outcome as `ProcessQuery`. */
  method RunTurn(query: string, tools: seq<Tool>, world: World) returns (r: Result<Answer, TurnError>)
    ensures r == ProcessQuery(query, tools, world)
  {
    var seed := Seed(query, tools);
    if world.firstReply.Failed? {
      return Err(GatewayFailed(world.firstReply.error));
    }
    var m := world.firstReply.message;
    if HasToolCalls(m) {
      var calls := m.toolCalls.value;
      var acc := seed;
      var i := 0;
      while i < |calls|
        invariant 0 <= i <= |calls|
        invariant Dispatch(calls, i, seed, world) == Ok(acc)
      {
        var step := Step(calls[i], i, acc, world);
        if step.Err? {
          DispatchStopsAtFailure(calls, i + 1, |calls|, seed, world);
          return Err(step.error);
        }
        acc := step.value;
        i := i + 1;
      }
      r := Ok(Answer(Join(acc.lines, "\n"), acc));
    } else if m.content.Some? {
      r := Ok(Answer(m.content.value, Turn(seed.messages, [m.content.value], seed.requests, seed.invocations)));
    } else {
      r := Ok(Answer("", seed));
    }
  }
}
