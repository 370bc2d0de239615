/** `OpenAIHandler` of `src/mcp_client/openai_handler.py`: the multi-turn
    tool loop over an OpenAI-compatible chat endpoint. The endpoint is a
    function from the message history to a reply; the tool provider is a
    function from a call to its outcome. */
module OpenAIHandler {
  import opened Options
  import opened JsonValue
  import opened Text
  import opened Errors
  import opened AmapClient
  import opened BaseHandler
  import Helpers

  /** One entry of `message.tool_calls`: its id, type, function name and the
      function arguments as JSON text. */
  datatype ToolCallMsg = ToolCallMsg(id: string, kind: string, name: string, arguments: string)

  /** A chat completion: `NoChoices` when `choices` is empty, otherwise the
      first choice's message text and tool calls. */
  datatype Completion = NoChoices | Reply(content: Option<string>, toolCalls: seq<ToolCallMsg>)

  /** The messages of the history sent to the endpoint. */
  datatype ChatMessage =
    | System(content: string)
    | User(content: string)
    | Assistant(text: Option<string>, calls: seq<ToolCallMsg>)
    | ToolReply(toolCallId: string, content: string)

  /** A follow-up call of the endpoint on a history: a reply, or an exception
      with its text. */
  type ChatModel = seq<ChatMessage> -> Result<Completion, string>

  /** An entry of the tool list sent to the endpoint: `{"type": "function",
      "function": {"name", "description", "parameters"}}`. */
  datatype FunctionTool = FunctionTool(name: string, description: Value, parameters: Value)

  /** What a tool call needs: `json.loads`, the tool provider, `json.dumps`
      on data it accepts, and the message of the `TypeError` it raises on a
      value holding an instance. */
  datatype ToolEnv = ToolEnv(parse: Parser, call: ToolOracle, dumps: Value -> string, dumpsRejects: Value -> string)

  const IterationNotice := "工具调用次数过多，未能完成所有处理。"

  /** The prefix of the tool message answering a call whose arguments do not
      parse. */
  const ArgumentsUnparsed := "参数解析失败: "

  /** The prefixes of the error `process_query` raises when the first
      endpoint call fails. */
  const QueryFailed := "查询处理失败: "
  const ApiFailed := "OpenAI API调用失败: "

  /** The prefix of the part recording a failed follow-up call. */
  const FollowUpError := "无法完成后续回答: "

  /** The `IndexError` of `choices[0]` on an empty list. */
  const NoChoiceFault: Exc := Builtin("IndexError", "list index out of range")

  /** The `TypeError` of `json.dumps` on a value holding an instance. */
  function DumpsFault(env: ToolEnv, v: Value): Exc
  {
    Builtin("TypeError", env.dumpsRejects(v))
  }

  /** The `AttributeError` of reading `settings.tool_max_iterations`, which
      the settings class does not declare. */
  const MissingBoundFault: Exc := Builtin("AttributeError", "'Settings' object has no attribute 'tool_max_iterations'")

  predicate TruthyText(s: Option<string>)
  {
    s.Some? && s.value != ""
  }

  // ---------------------------------------------------------------------------
  // _get_http_client

  /** The proxy `_get_http_client` configures: the HTTPS proxy, else the HTTP
      proxy, else the catch-all one; `None` when none is set. */
  function ChooseProxy(httpsProxy: Option<string>, httpProxy: Option<string>, allProxy: Option<string>): (proxy: Option<string>)
    ensures proxy.None? <==> !TruthyText(httpsProxy) && !TruthyText(httpProxy) && !TruthyText(allProxy)
    ensures TruthyText(httpsProxy) ==> proxy == httpsProxy
    ensures !TruthyText(httpsProxy) && TruthyText(httpProxy) ==> proxy == httpProxy
    ensures !TruthyText(httpsProxy) && !TruthyText(httpProxy) && TruthyText(allProxy) ==> proxy == allProxy
  {
    if TruthyText(httpsProxy) then httpsProxy
    else if TruthyText(httpProxy) then httpProxy
    else if TruthyText(allProxy) then allProxy
    else None
  }

  // ---------------------------------------------------------------------------
  // _build_messages

  /** `system_prompt or self._build_system_prompt()` */
  function SystemText(systemPrompt: Option<string>, defaultPrompt: string): string
  {
    if TruthyText(systemPrompt) then systemPrompt.value else defaultPrompt
  }

  /** `_build_messages(query, context, system_prompt)`: `defaultPrompt` is
      what the prompt registry returns for the default template. */
  method BuildMessages(query: string, context: Option<Entries>, systemPrompt: Option<string>,
                       defaultPrompt: string, show: Show) returns (messages: seq<ChatMessage>)
    ensures |messages| == 2
    ensures messages[0] == System(SystemText(systemPrompt, defaultPrompt))
    ensures messages[1] == User(UserContent(query, context, show))
  {
    messages := [];
    messages := messages + [System(SystemText(systemPrompt, defaultPrompt))];
    var userContent := query;
    if context.Some? && context.value != [] {
      var contextText := FormatContext(context.value, show);
      if contextText != "" {
        userContent := "上下文信息：" + contextText + "\n\n用户查询：" + query;
      }
    }
    messages := messages + [User(userContent)];
  }

  // ---------------------------------------------------------------------------
  // The tool calls of one reply

  /** What handling one tool call gives: a tool message for arguments that do
      not parse; a record and the JSON of its result; or a record whose result
      `json.dumps` rejects, which raises. */
  datatype CallStep =
    | Unparsed(reply: ChatMessage)
    | Answered(record: ToolCallRecord, reply: ChatMessage)
    | Unserializable(record: ToolCallRecord)

  /** One pass of the inner loop's body on `tc`. */
  function HandleCall(env: ToolEnv, tc: ToolCallMsg): (step: CallStep)
    ensures step.Unparsed? <==> env.parse(tc.arguments).Err?
    ensures step.Unparsed? ==> step.reply == ToolReply(tc.id, ArgumentsUnparsed + env.parse(tc.arguments).error)
    ensures !step.Unparsed? ==>
      && step.record.toolName == tc.name && step.record.arguments == env.parse(tc.arguments).value
      && (step.Unserializable? <==> !Plain(step.record.result))
    ensures step.Answered? ==> step.reply == ToolReply(tc.id, env.dumps(step.record.result))
  {
    match env.parse(tc.arguments)
    case Err(m) => Unparsed(ToolReply(tc.id, ArgumentsUnparsed + m))
    case Ok(arguments) =>
      var rec := ExecuteToolCall(tc.name, arguments, env.call(tc.name, arguments), env.parse);
      if Plain(rec.result) then Answered(rec, ToolReply(tc.id, env.dumps(rec.result)))
      else Unserializable(rec)
  }

  /** What the calls of one reply leave behind: the history with one tool
      message per call handled, the records, and the exception that cut the
      round short, if any. */
  datatype CallsOutcome = CallsOutcome(messages: seq<ChatMessage>, records: seq<ToolCallRecord>, fault: Option<Exc>)

  /** Handles `calls[i..]` in order after `messages` and `records`. */
  function RunCalls(env: ToolEnv, calls: seq<ToolCallMsg>, i: nat, messages: seq<ChatMessage>,
                    records: seq<ToolCallRecord>): CallsOutcome
    requires i <= |calls|
    decreases |calls| - i
  {
    if i == |calls| then CallsOutcome(messages, records, None)
    else
      match HandleCall(env, calls[i])
      case Unparsed(reply) => RunCalls(env, calls, i + 1, messages + [reply], records)
      case Answered(rec, reply) => RunCalls(env, calls, i + 1, messages + [reply], records + [rec])
      case Unserializable(rec) => CallsOutcome(messages, records + [rec], Some(DumpsFault(env, rec.result)))
  }

  /** The `(name, arguments)` of the calls whose arguments parse, in order. */
  function ParsedCalls(parse: Parser, calls: seq<ToolCallMsg>): seq<(string, Value)>
  {
    if calls == [] then []
    else
      (match parse(calls[0].arguments)
       case Ok(arguments) => [(calls[0].name, arguments)]
       case Err(_) => []) + ParsedCalls(parse, calls[1..])
  }

  /** `replies` answers `calls` one by one: a tool message per call, in the
      same order, carrying that call's id. */
  predicate RepliesTo(replies: seq<ChatMessage>, calls: seq<ToolCallMsg>)
  {
    |replies| == |calls| &&
    forall k :: 0 <= k < |replies| ==> replies[k].ToolReply? && replies[k].toolCallId == calls[k].id
  }

  lemma RepliesToCons(reply: ChatMessage, replies: seq<ChatMessage>, tc: ToolCallMsg, calls: seq<ToolCallMsg>)
    requires reply.ToolReply? && reply.toolCallId == tc.id && RepliesTo(replies, calls)
    ensures RepliesTo([reply] + replies, [tc] + calls)
  {
    forall k | 0 <= k < |replies| + 1
      ensures ([reply] + replies)[k].ToolReply? && ([reply] + replies)[k].toolCallId == ([tc] + calls)[k].id
    {
      if k > 0 {
        assert ([reply] + replies)[k] == replies[k - 1];
      }
    }
  }

  /** Handling a round of calls only appends to the history and the records. */
  lemma {:induction false} RunCallsAppend(env: ToolEnv, calls: seq<ToolCallMsg>, i: nat,
                                          messages: seq<ChatMessage>, records: seq<ToolCallRecord>)
    requires i <= |calls|
    ensures messages <= RunCalls(env, calls, i, messages, records).messages
    ensures records <= RunCalls(env, calls, i, messages, records).records
    decreases |calls| - i
  {
    if i < |calls| {
      match HandleCall(env, calls[i])
      case Unparsed(reply) =>
        RunCallsAppend(env, calls, i + 1, messages + [reply], records);
      case Answered(rec, reply) =>
        RunCallsAppend(env, calls, i + 1, messages + [reply], records + [rec]);
      case Unserializable(rec) =>
    }
  }

  /** Without a fault, the round appends one tool message per call, in
      order, answering that call's id. */
  lemma {:induction false} RunCallsReplies(env: ToolEnv, calls: seq<ToolCallMsg>, i: nat,
                                           messages: seq<ChatMessage>, records: seq<ToolCallRecord>)
    requires i <= |calls|
    ensures var o := RunCalls(env, calls, i, messages, records);
      o.fault.None? ==> |messages| <= |o.messages| && RepliesTo(o.messages[|messages|..], calls[i..])
    decreases |calls| - i
  {
    if i < |calls| {
      var tc := calls[i];
      assert calls[i..] == [tc] + calls[i + 1..];
      var step := HandleCall(env, tc);
      if !step.Unserializable? {
        var ms := messages + [step.reply];
        var rs := if step.Answered? then records + [step.record] else records;
        assert RunCalls(env, calls, i, messages, records) == RunCalls(env, calls, i + 1, ms, rs);
        RunCallsReplies(env, calls, i + 1, ms, rs);
        var o := RunCalls(env, calls, i + 1, ms, rs);
        if o.fault.None? {
          RunCallsAppend(env, calls, i + 1, ms, rs);
          assert o.messages[|messages|..] == [step.reply] + o.messages[|ms|..];
          RepliesToCons(step.reply, o.messages[|ms|..], tc, calls[i + 1..]);
        }
      }
    } else {
      assert calls[i..] == [];
    }
  }

  /** Without a fault, the round records exactly the calls whose arguments
      parse, in order. */
  lemma {:induction false} RunCallsInvocations(env: ToolEnv, calls: seq<ToolCallMsg>, i: nat,
                                               messages: seq<ChatMessage>, records: seq<ToolCallRecord>)
    requires i <= |calls|
    ensures var o := RunCalls(env, calls, i, messages, records);
      o.fault.None? ==> Invocations(o.records) == Invocations(records) + ParsedCalls(env.parse, calls[i..])
    decreases |calls| - i
  {
    if i < |calls| {
      var tc := calls[i];
      assert calls[i..][0] == tc && calls[i..][1..] == calls[i + 1..];
      var step := HandleCall(env, tc);
      match step
      case Unparsed(reply) =>
        assert ParsedCalls(env.parse, calls[i..]) == ParsedCalls(env.parse, calls[i + 1..]);
        RunCallsInvocations(env, calls, i + 1, messages + [reply], records);
      case Answered(rec, reply) =>
        assert ParsedCalls(env.parse, calls[i..]) == [(rec.toolName, rec.arguments)] + ParsedCalls(env.parse, calls[i + 1..]);
        assert Invocations(records + [rec]) == Invocations(records) + [(rec.toolName, rec.arguments)];
        RunCallsInvocations(env, calls, i + 1, messages + [reply], records + [rec]);
      case Unserializable(rec) =>
    } else {
      assert calls[i..] == [];
    }
  }

  /** The inner `for tool_call in message.tool_calls` loop. */
  method ExecuteCalls(env: ToolEnv, calls: seq<ToolCallMsg>, messages: seq<ChatMessage>,
                      records: seq<ToolCallRecord>) returns (out: CallsOutcome)
    ensures out == RunCalls(env, calls, 0, messages, records)
  {
    var ms := messages;
    var rs := records;
    var i := 0;
    while i < |calls|
      invariant 0 <= i <= |calls|
      invariant RunCalls(env, calls, i, ms, rs) == RunCalls(env, calls, 0, messages, records)
      decreases |calls| - i
    {
      var tc := calls[i];
      var parsed := env.parse(tc.arguments);
      if parsed.Err? {
        ms := ms + [ToolReply(tc.id, ArgumentsUnparsed + parsed.error)];
      } else {
        var arguments := parsed.value;
        var rec := ExecuteToolCall(tc.name, arguments, env.call(tc.name, arguments), env.parse);
        rs := rs + [rec];
        if !Plain(rec.result) {
          return CallsOutcome(ms, rs, Some(DumpsFault(env, rec.result)));
        }
        ms := ms + [ToolReply(tc.id, env.dumps(rec.result))];
      }
      i := i + 1;
    }
    return CallsOutcome(ms, rs, None);
  }

  // ---------------------------------------------------------------------------
  // _handle_response

  /** The variables of the `while` loop: the counter, the reply to handle,
      the history, the text parts, the records and the follow-up calls made. */
  datatype LoopState = LoopState(iteration: int, reply: Completion, messages: seq<ChatMessage>,
                                 parts: seq<string>, records: seq<ToolCallRecord>, followUps: nat)

  /** Why the loop stopped: a reply without tool calls, a failed follow-up
      call, or the counter reaching the bound. */
  datatype Exit = Converged | FollowUpFailed | Exhausted

  datatype LoopEnd = Finished(st: LoopState, exit: Exit) | Crashed(fault: Exc, records: seq<ToolCallRecord>)

  /** What one pass of the loop body leads to: the next pass, or the end. */
  datatype Next = Continue(next: LoopState) | Halt(end: LoopEnd)

  /** One pass of the loop body on `st`. */
  function Round(env: ToolEnv, model: ChatModel, st: LoopState): (n: Next)
    ensures n.Continue? ==> n.next.iteration == st.iteration + 1 && n.next.followUps == st.followUps + 1
    ensures n.Halt? && n.end.Finished? ==>
      && n.end.st.iteration == st.iteration + 1 && n.end.exit != Exhausted
      && n.end.st.followUps == st.followUps + (if n.end.exit == Converged then 0 else 1)
    ensures n.Halt? && n.end.Finished? && n.end.exit == Converged ==>
      st.reply.Reply? && st.reply.toolCalls == []
  {
    match st.reply
    case NoChoices => Halt(Crashed(NoChoiceFault, st.records))
    case Reply(content, calls) =>
      var it := st.iteration + 1;
      var parts := st.parts + (if TruthyText(content) then [content.value] else []);
      if calls == [] then Halt(Finished(st.(iteration := it, parts := parts), Converged))
      else
        var out := RunCalls(env, calls, 0, st.messages + [Assistant(content, calls)], st.records);
        if out.fault.Some? then Halt(Crashed(out.fault.value, out.records))
        else
          match model(out.messages)
          case Err(m) =>
            Halt(Finished(LoopState(it, st.reply, out.messages, parts + [FollowUpError + m], out.records, st.followUps + 1),
                          FollowUpFailed))
          case Ok(next) =>
            Continue(LoopState(it, next, out.messages, parts, out.records, st.followUps + 1))
  }

  /** The rest of the loop from state `st` with bound `bound`. */
  function Drive(bound: int, env: ToolEnv, model: ChatModel, st: LoopState): LoopEnd
    decreases bound - st.iteration
  {
    if st.iteration >= bound then Finished(st, Exhausted)
    else
      match Round(env, model, st)
      case Continue(next) => Drive(bound, env, model, next)
      case Halt(end) => end
  }

  /** The result built after the loop. */
  function Assemble(requestId: string, bound: int, end: LoopEnd): QueryResult
  {
    match end
    case Finished(st, _) =>
      var parts := st.parts + (if st.iteration >= bound then [IterationNotice] else []);
      var text := Join(parts, "\n");
      QueryResult(requestId, true, text, st.records, text, None)
    case Crashed(fault, records) =>
      QueryResult(requestId, false, "", records, "", Some(StrOf(fault)))
  }

  function Start(reply: Completion, messages: seq<ChatMessage>): LoopState
  {
    LoopState(0, reply, messages, [], [], 0)
  }

  /** `_handle_response(response, messages, tools, request_id)`, where
      `bound` is `settings.tool_max_iterations` (`None` when the attribute
      does not exist). */
  function HandleResult(requestId: string, bound: Option<int>, env: ToolEnv, model: ChatModel,
                        response: Completion, messages: seq<ChatMessage>): QueryResult
  {
    match bound
    case None => QueryResult(requestId, false, "", [], "", Some(StrOf(MissingBoundFault)))
    case Some(n) => Assemble(requestId, n, Drive(n, env, model, Start(response, messages)))
  }

  /** The loop of `_handle_response`, step by step. */
  method HandleResponse(requestId: string, bound: Option<int>, env: ToolEnv, model: ChatModel,
                        response: Completion, messages: seq<ChatMessage>) returns (result: QueryResult)
    ensures result == HandleResult(requestId, bound, env, model, response, messages)
  {
    if bound.None? {
      return QueryResult(requestId, false, "", [], "", Some(StrOf(MissingBoundFault)));
    }
    var maxIterations := bound.value;
    ghost var goal := Drive(maxIterations, env, model, Start(response, messages));
    var current := response;
    var currentMessages := messages;
    var parts: seq<string> := [];
    var records: seq<ToolCallRecord> := [];
    var followUps: nat := 0;
    var iteration := 0;
    var stopped := false;
    ghost var exit := Exhausted;
    while iteration < maxIterations && !stopped
      invariant !stopped ==>
        Drive(maxIterations, env, model, LoopState(iteration, current, currentMessages, parts, records, followUps)) == goal
      invariant stopped ==>
        goal == Finished(LoopState(iteration, current, currentMessages, parts, records, followUps), exit)
      decreases maxIterations - iteration, if stopped then 0 else 1
    {
      ghost var before := LoopState(iteration, current, currentMessages, parts, records, followUps);
      ghost var step := Round(env, model, before);
      assert goal == if step.Continue? then Drive(maxIterations, env, model, step.next) else step.end;
      iteration := iteration + 1;
      if current.NoChoices? {
        return QueryResult(requestId, false, "", records, "", Some(StrOf(NoChoiceFault)));
      }
      var content := current.content;
      if TruthyText(content) {
        parts := parts + [content.value];
      }
      if current.toolCalls == [] {
        stopped := true;
        exit := Converged;
      } else {
        var out := ExecuteCalls(env, current.toolCalls, currentMessages + [Assistant(content, current.toolCalls)], records);
        if out.fault.Some? {
          return QueryResult(requestId, false, "", out.records, "", Some(StrOf(out.fault.value)));
        }
        currentMessages := out.messages;
        records := out.records;
        followUps := followUps + 1;
        var followUp := model(currentMessages);
        if followUp.Err? {
          parts := parts + [FollowUpError + followUp.error];
          stopped := true;
          exit := FollowUpFailed;
        } else {
          current := followUp.value;
          assert step == Continue(LoopState(iteration, current, currentMessages, parts, records, followUps));
        }
      }
    }
    assert goal.Finished? && goal.st == LoopState(iteration, current, currentMessages, parts, records, followUps);
    if iteration >= maxIterations {
      parts := parts + [IterationNotice];
    }
    assert parts == goal.st.parts + (if goal.st.iteration >= maxIterations then [IterationNotice] else []);
    var text := Join(parts, "\n");
    assert HandleResult(requestId, bound, env, model, response, messages) == Assemble(requestId, maxIterations, goal);
    return QueryResult(requestId, true, text, records, text, None);
  }

  // ---------------------------------------------------------------------------
  // Properties of the loop

  /** The counter never passes the bound; the loop stops at a reply without
      tool calls; and every round with tool calls makes exactly one follow-up
      call, so the follow-up calls are the rounds minus the converging one. */
  lemma {:induction false} DriveCounts(bound: int, env: ToolEnv, model: ChatModel, st: LoopState)
    requires st.iteration <= bound || st.iteration == 0
    ensures var end := Drive(bound, env, model, st);
      end.Finished? ==>
        && st.iteration <= end.st.iteration
        && (end.st.iteration <= bound || end.st.iteration == st.iteration)
        && (end.exit == Exhausted ==> end.st.iteration >= bound)
        && (end.exit == Exhausted ==> end.st.iteration == if st.iteration <= bound then bound else st.iteration)
        && end.st.followUps - st.followUps == end.st.iteration - st.iteration - (if end.exit == Converged then 1 else 0)
    ensures var end := Drive(bound, env, model, st);
      end.Finished? && end.exit == Converged ==> end.st.reply.Reply? && end.st.reply.toolCalls == []
    decreases bound - st.iteration
  {
    if st.iteration < bound {
      var n := Round(env, model, st);
      if n.Continue? {
        DriveCounts(bound, env, model, n.next);
      } else if n.end.Finished? && n.end.exit == Converged {
        assert n.end.st.reply == st.reply;
      }
    }
  }

  /** One round only appends to the history and the records, whether it
      continues, finishes or raises. */
  lemma RoundAppends(env: ToolEnv, model: ChatModel, st: LoopState)
    ensures var n := Round(env, model, st);
      && (n.Continue? ==> st.records <= n.next.records && st.messages <= n.next.messages)
      && (n.Halt? && n.end.Finished? ==> st.records <= n.end.st.records && st.messages <= n.end.st.messages)
      && (n.Halt? && n.end.Crashed? ==> st.records <= n.end.records)
  {
    if st.reply.Reply? && st.reply.toolCalls != [] {
      var ms := st.messages + [Assistant(st.reply.content, st.reply.toolCalls)];
      RunCallsAppend(env, st.reply.toolCalls, 0, ms, st.records);
    }
  }

  /** The text parts a reply adds before its tool calls are handled: its
      content exactly when that is a non-empty string. */
  function ContentParts(reply: Completion): seq<string>
    requires reply.Reply?
  {
    if TruthyText(reply.content) then [reply.content.value] else []
  }

  /** What one round does to the history, the parts and the records. A
      reply without tool calls adds only its content part. A reply with calls
      that are all handled appends to the history the assistant message with
      those calls and then one tool message per call, in order, answering its
      id; it records exactly the calls whose arguments parse; and it adds its
      content part, followed by the error text when the follow-up fails. */
  lemma RoundEffect(env: ToolEnv, model: ChatModel, st: LoopState)
    requires st.reply.Reply?
    ensures var n := Round(env, model, st);
      var calls := st.reply.toolCalls;
      var pre := st.messages + [Assistant(st.reply.content, calls)];
      && (calls == [] ==> n == Halt(Finished(st.(iteration := st.iteration + 1, parts := st.parts + ContentParts(st.reply)), Converged)))
      && (n.Continue? ==>
            && calls != []
            && n.next.parts == st.parts + ContentParts(st.reply)
            && |pre| <= |n.next.messages| && n.next.messages[..|pre|] == pre
            && RepliesTo(n.next.messages[|pre|..], calls)
            && Invocations(n.next.records) == Invocations(st.records) + ParsedCalls(env.parse, calls))
      && (n.Halt? && n.end.Finished? && n.end.exit == FollowUpFailed ==>
            && calls != []
            && |n.end.st.parts| == |st.parts| + |ContentParts(st.reply)| + 1
            && n.end.st.parts[..|n.end.st.parts| - 1] == st.parts + ContentParts(st.reply)
            && |pre| <= |n.end.st.messages| && n.end.st.messages[..|pre|] == pre
            && RepliesTo(n.end.st.messages[|pre|..], calls)
            && Invocations(n.end.st.records) == Invocations(st.records) + ParsedCalls(env.parse, calls))
  {
    var calls := st.reply.toolCalls;
    if calls != [] {
      var pre := st.messages + [Assistant(st.reply.content, calls)];
      assert calls[0..] == calls;
      RunCallsAppend(env, calls, 0, pre, st.records);
      RunCallsReplies(env, calls, 0, pre, st.records);
      RunCallsInvocations(env, calls, 0, pre, st.records);
      var n := Round(env, model, st);
      if n.Halt? && n.end.Finished? {
        var ps := n.end.st.parts;
        assert ps[..|ps| - 1] == st.parts + ContentParts(st.reply);
      }
    }
  }

  /** The records a run ends with, whether it finished or raised. */
  function EndRecords(end: LoopEnd): seq<ToolCallRecord>
  {
    if end.Finished? then end.st.records else end.records
  }

  /** Records are only ever added: whatever ends the loop, the records of the
      earlier rounds are kept, also when a later step raises; and the history
      only grows. */
  lemma {:induction false} DriveKeepsRecords(bound: int, env: ToolEnv, model: ChatModel, st: LoopState)
    ensures st.records <= EndRecords(Drive(bound, env, model, st))
    ensures var end := Drive(bound, env, model, st);
      end.Finished? ==> st.messages <= end.st.messages
    decreases bound - st.iteration
  {
    if st.iteration < bound {
      RoundAppends(env, model, st);
      var n := Round(env, model, st);
      if n.Continue? {
        DriveKeepsRecords(bound, env, model, n.next);
      }
    }
  }

  /** The notice is appended exactly when the loop ran out of rounds or
      converged in the last allowed round, and always for a bound of zero or
      less. */
  lemma NoticeRule(requestId: string, bound: int, env: ToolEnv, model: ChatModel,
                   response: Completion, messages: seq<ChatMessage>)
    ensures var end := Drive(bound, env, model, Start(response, messages));
      end.Finished? ==>
        var parts := end.st.parts + (if end.st.iteration >= bound then [IterationNotice] else []);
        && Assemble(requestId, bound, end).response == Join(parts, "\n")
        && (end.st.iteration >= bound <==> end.exit == Exhausted || end.st.iteration == bound)
        && (bound <= 0 ==> end.exit == Exhausted && end.st.iteration == 0)
  {
    DriveCounts(bound, env, model, Start(response, messages));
  }

  /** With a bound of one, a first reply without tool calls still gets the
      notice appended after its text. */
  lemma ConvergedInLastRoundNotices(requestId: string, env: ToolEnv, model: ChatModel, text: string, messages: seq<ChatMessage>)
    requires text != ""
    ensures HandleResult(requestId, Some(1), env, model, Reply(Some(text), []), messages).response ==
      text + "\n" + IterationNotice
  {
    var st := Start(Reply(Some(text), []), messages);
    assert TruthyText(Some(text));
    assert [] + [text] == [text];
    assert Round(env, model, st) == Halt(Finished(LoopState(1, Reply(Some(text), []), messages, [text], [], 0), Converged));
    assert Join([text, IterationNotice], "\n") == text + "\n" + Join([IterationNotice], "\n");
  }

  /** A round that finishes on a failed follow-up call ends its parts with
      that call's error text. */
  predicate EndsWithFollowUpError(end: LoopEnd)
  {
    end.Finished? && end.exit == FollowUpFailed ==>
      |end.st.parts| >= 1 && StartsWith(end.st.parts[|end.st.parts| - 1], FollowUpError)
  }

  lemma RoundFollowUpFailure(env: ToolEnv, model: ChatModel, st: LoopState)
    ensures var n := Round(env, model, st);
      n.Halt? ==> EndsWithFollowUpError(n.end)
  {
    var n := Round(env, model, st);
    if n.Halt? && n.end.Finished? && n.end.exit == FollowUpFailed {
      var out := RunCalls(env, st.reply.toolCalls, 0, st.messages + [Assistant(st.reply.content, st.reply.toolCalls)], st.records);
      var m := model(out.messages).error;
      var last := FollowUpError + m;
      assert n.end.st.parts[|n.end.st.parts| - 1] == last;
      assert last[..|FollowUpError|] == FollowUpError;
    }
  }

  lemma {:induction false} FollowUpFailureLast(bound: int, env: ToolEnv, model: ChatModel, st: LoopState)
    ensures EndsWithFollowUpError(Drive(bound, env, model, st))
    decreases bound - st.iteration
  {
    if st.iteration < bound {
      RoundFollowUpFailure(env, model, st);
      var n := Round(env, model, st);
      if n.Continue? {
        assert Drive(bound, env, model, st) == Drive(bound, env, model, n.next);
        FollowUpFailureLast(bound, env, model, n.next);
      } else {
        assert Drive(bound, env, model, st) == n.end;
      }
    }
  }

  /** A failed follow-up call ends the loop successfully, with its error
      text as the last part (before any notice). */
  lemma FollowUpFailureKeepsSuccess(requestId: string, bound: int, env: ToolEnv, model: ChatModel,
                                    response: Completion, messages: seq<ChatMessage>)
    ensures var end := Drive(bound, env, model, Start(response, messages));
      end.Finished? && end.exit == FollowUpFailed ==>
        && Assemble(requestId, bound, end).success
        && Assemble(requestId, bound, end).error == None
        && EndsWithFollowUpError(end)
  {
    FollowUpFailureLast(bound, env, model, Start(response, messages));
  }

  /** Success and failure as the caller sees them: `response` and
      `final_answer` agree; a failure carries the error and no text. */
  lemma ResultShape(requestId: string, bound: Option<int>, env: ToolEnv, model: ChatModel,
                    response: Completion, messages: seq<ChatMessage>)
    ensures var r := HandleResult(requestId, bound, env, model, response, messages);
      && r.requestId == requestId
      && r.response == r.finalAnswer
      && (r.success <==> r.error.None?)
      && (!r.success ==> r.response == "")
  {
  }

  /** As the settings class stands, every query fails in the loop's set-up:
      no endpoint reply and no tool is ever looked at. */
  lemma MissingBoundAlwaysFails(requestId: string, env: ToolEnv, model: ChatModel,
                                response: Completion, messages: seq<ChatMessage>)
    ensures var r := HandleResult(requestId, None, env, model, response, messages);
      !r.success && r.toolCalls == [] && r.error == Some(StrOf(MissingBoundFault))
  {
  }

  // ---------------------------------------------------------------------------
  // The handler object: _prepare_openai_tools and process_query

  function ToFunctionTool(t: ToolInfo): FunctionTool
  {
    FunctionTool(t.name, t.description, t.inputSchema)
  }

  /** The first API call of one attempt of `process_query`, wrapped the way
      its two `except` clauses wrap a failure. */
  function QueryAttempt(requestId: string, bound: Option<int>, env: ToolEnv, model: ChatModel,
                        first: Result<Completion, string>, messages: seq<ChatMessage>): Helpers.Attempt<QueryResult>
  {
    match first
    case Err(m) => Helpers.Raised(Raise(ClaudeAPI, QueryFailed + StrOf(Raise(ClaudeAPI, ApiFailed + m))))
    case Ok(reply) => Helpers.Returned(HandleResult(requestId, bound, env, model, reply, messages))
  }

  /** The attempts of `process_query` under `retry_async(max_retries=2,
      delay=1.0)` on a built history: attempt `k` uses request id
      `requestIds(k)` and gets `firstReplies(k)` from its first API call. */
  method RetryQuery(requestIds: nat -> string, bound: Option<int>, env: ToolEnv, model: ChatModel,
                    firstReplies: nat -> Result<Completion, string>, messages: seq<ChatMessage>)
    returns (r: Result<QueryResult, Exc>, attempts: nat)
    ensures 1 <= attempts <= 3
    ensures forall k :: 0 <= k < attempts - 1 ==> firstReplies(k).Err?
    ensures r.Ok? ==>
      && firstReplies(attempts - 1).Ok?
      && r.value == HandleResult(requestIds(attempts - 1), bound, env, model, firstReplies(attempts - 1).value, messages)
    ensures r.Err? ==>
      && attempts == 3 && firstReplies(2).Err?
      && r.error == Raise(ClaudeAPI, QueryFailed + (ApiFailed + firstReplies(2).error))
  {
    var attempt := (k: nat) => QueryAttempt(requestIds(k), bound, env, model, firstReplies(k), messages);
    var sleeps;
    r, attempts, sleeps := Helpers.Retry(2, 1.0, 2.0, (e: Exc) => true, attempt);
    assert attempt(attempts - 1) == QueryAttempt(requestIds(attempts - 1), bound, env, model, firstReplies(attempts - 1), messages);
    forall k | 0 <= k < attempts - 1 ensures firstReplies(k).Err? {
      assert attempt(k) == QueryAttempt(requestIds(k), bound, env, model, firstReplies(k), messages);
    }
  }

  class Handler {
    const tools: ToolsCache

    constructor()
      ensures fresh(tools) && tools.cache == None
    {
      tools := new ToolsCache();
    }

    /** `_prepare_openai_tools()`: the cached catalog, each entry as a
        function tool, in order. */
    method PrepareOpenAITools(listing: Result<seq<ToolInfo>, Exc>) returns (openaiTools: seq<FunctionTool>)
      modifies tools
      ensures tools.cache.Some?
      ensures old(tools.cache).Some? ==> tools.cache == old(tools.cache)
      ensures old(tools.cache).None? ==> tools.cache == Some(if listing.Ok? then listing.value else [])
      ensures |openaiTools| == |tools.cache.value|
      ensures forall i :: 0 <= i < |openaiTools| ==>
        && openaiTools[i].name == tools.cache.value[i].name
        && openaiTools[i].description == tools.cache.value[i].description
        && openaiTools[i].parameters == tools.cache.value[i].inputSchema
    {
      var mcpTools, _ := tools.Prepare(listing);
      openaiTools := [];
      var i := 0;
      while i < |mcpTools|
        invariant 0 <= i <= |mcpTools|
        invariant |openaiTools| == i
        invariant forall j :: 0 <= j < i ==> openaiTools[j] == ToFunctionTool(mcpTools[j])
      {
        openaiTools := openaiTools + [ToFunctionTool(mcpTools[i])];
        i := i + 1;
      }
    }

    /** `process_query(query, context, system_prompt)`: the tool catalog is
        prepared once, the history built, and the attempts run as in
        `RetryQuery`. */
    method ProcessQuery(query: string, context: Option<Entries>, systemPrompt: Option<string>,
                        defaultPrompt: string, show: Show, listing: Result<seq<ToolInfo>, Exc>,
                        bound: Option<int>, env: ToolEnv, model: ChatModel,
                        requestIds: nat -> string, firstReplies: nat -> Result<Completion, string>)
      returns (r: Result<QueryResult, Exc>, attempts: nat)
      modifies tools
      ensures 1 <= attempts <= 3
      ensures r.Ok? ==>
        && firstReplies(attempts - 1).Ok?
        && r.value == HandleResult(requestIds(attempts - 1), bound, env, model, firstReplies(attempts - 1).value,
                                   [System(SystemText(systemPrompt, defaultPrompt)), User(UserContent(query, context, show))])
      ensures r.Err? ==> attempts == 3 && firstReplies(2).Err?
      ensures old(tools.cache).Some? ==> tools.cache == old(tools.cache)
      ensures old(tools.cache).None? ==> tools.cache == Some(if listing.Ok? then listing.value else [])
    {
      var openaiTools := PrepareOpenAITools(listing);
      var messages := BuildMessages(query, context, systemPrompt, defaultPrompt, show);
      assert messages == [System(SystemText(systemPrompt, defaultPrompt)), User(UserContent(query, context, show))];
      r, attempts := RetryQuery(requestIds, bound, env, model, firstReplies, messages);
    }
  }
}
