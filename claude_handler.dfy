/** `ClaudeHandler` of `src/mcp_client/claude_handler.py`: one round of tool
    use over the Anthropic messages endpoint. The endpoint is a function from
    the history it is sent to the content blocks of its reply. */
module ClaudeHandler {
  import opened Options
  import opened JsonValue
  import opened Text
  import opened Errors
  import opened AmapClient
  import opened BaseHandler
  import Helpers

  /** A content block of a reply: text, a tool use, or any other kind. */
  datatype Block = TextBlock(text: string) | ToolUse(id: string, name: string, input: Value) | OtherBlock(kind: string)

  /** An entry of the history list `_handle_response` appends to. Every
      assistant entry it appends holds the same `assistant_content` list
      object, which keeps growing afterwards: `SharedAssistant` stands for that
      list, whatever it holds when the history is sent. */
  datatype Turn = UserTurn(text: string) | SharedAssistant | ToolResult(toolUseId: string, result: Value)

  /** An entry of the history as the endpoint receives it. */
  datatype Sent = SentUser(text: string) | SentAssistant(blocks: seq<Block>) | SentToolResult(toolUseId: string, result: Value)

  /** A call of the endpoint on a history: the content blocks of its reply,
      or the text of the exception it raised. */
  type ClaudeModel = seq<Sent> -> Result<seq<Block>, string>

  /** The history as sent while `assistant_content` holds `shared`. */
  function Resolve(history: seq<Turn>, shared: seq<Block>): (sent: seq<Sent>)
    ensures |sent| == |history|
    ensures forall k :: 0 <= k < |history| ==>
      (history[k].SharedAssistant? <==> sent[k].SentAssistant?) &&
      (history[k].SharedAssistant? ==> sent[k].blocks == shared)
    ensures forall k :: 0 <= k < |history| ==> history[k].UserTurn? ==> sent[k] == SentUser(history[k].text)
    ensures forall k :: 0 <= k < |history| ==> history[k].ToolResult? ==>
      sent[k] == SentToolResult(history[k].toolUseId, history[k].result)
  {
    seq(|history|, k requires 0 <= k < |history| =>
      match history[k]
      case UserTurn(c) => SentUser(c)
      case SharedAssistant => SentAssistant(shared)
      case ToolResult(id, c) => SentToolResult(id, c))
  }

  /** The texts of the text blocks, in order. */
  function Texts(blocks: seq<Block>): (texts: seq<string>)
    ensures |texts| <= |blocks|
  {
    if blocks == [] then []
    else (if blocks[0].TextBlock? then [blocks[0].text] else []) + Texts(blocks[1..])
  }

  /** The tool-use blocks, in order. */
  function ToolUses(blocks: seq<Block>): (uses: seq<Block>)
    ensures |uses| <= |blocks|
    ensures forall k :: 0 <= k < |uses| ==> uses[k].ToolUse?
  {
    if blocks == [] then []
    else (if blocks[0].ToolUse? then [blocks[0]] else []) + ToolUses(blocks[1..])
  }

  const ClaudeSystemPrompt :=
    "你是一个专业的地址解析助手，能够使用高德地图API来帮助用户解析地址、获取地理信息。\n\n" +
    "你的主要功能包括：\n1. 地址解析和标准化\n2. 地理编码（地址转坐标）\n3. 逆地理编码（坐标转地址）\n" +
    "4. POI（兴趣点）搜索\n5. 路径规划和距离计算\n\n" +
    "使用指南：\n- 当用户提供地址时，优先使用地理编码工具获取精确坐标\n" +
    "- 当用户提供坐标时，使用逆地理编码获取详细地址信息\n" +
    "- 对于模糊地址，尝试使用POI搜索找到最匹配的结果\n" +
    "- 始终提供清晰、准确的中文回复\n" +
    "- 如果遇到错误，请友好地解释问题并建议解决方案\n\n" +
    "请根据用户的具体需求选择合适的工具，并提供有用的地理信息。"

  /** The prefix of the error `process_query` raises. */
  const QueryFailed := "查询处理失败: "

  /** `system_prompt or self._build_system_prompt()` */
  function SystemText(systemPrompt: Option<string>): string
  {
    if systemPrompt.Some? && systemPrompt.value != "" then systemPrompt.value else ClaudeSystemPrompt
  }

  /** `_build_messages(query, context)`: a single user entry. */
  method BuildMessages(query: string, context: Option<Entries>, show: Show) returns (messages: seq<Turn>)
    ensures messages == [UserTurn(UserContent(query, context, show))]
  {
    messages := [];
    if context.Some? && context.value != [] {
      var contextText := FormatContext(context.value, show);
      if contextText != "" {
        messages := messages + [UserTurn("上下文信息：" + contextText + "\n\n用户查询：" + query)];
      } else {
        messages := messages + [UserTurn(query)];
      }
    } else {
      messages := messages + [UserTurn(query)];
    }
  }

  /** `_execute_tool_call(tool_call, request_id)`: unlike the shared
      implementation it keeps the provider's result as it is. */
  function ToolCall(name: string, input: Value, outcome: Result<Value, Exc>): (rec: ToolCallRecord)
    ensures rec.toolName == name && rec.arguments == input
    ensures rec.success <==> outcome.Ok?
    ensures outcome.Ok? ==> rec.result == outcome.value && rec.error == None
    ensures outcome.Err? ==>
      rec.error == Some(StrOf(outcome.error)) && rec.result == Str("工具调用失败: " + StrOf(outcome.error))
  {
    match outcome
    case Ok(value) => ToolCallRecord(name, input, true, value, None)
    case Err(e) => ToolCallRecord(name, input, false, Str("工具调用失败: " + StrOf(e)), Some(StrOf(e)))
  }

  // ---------------------------------------------------------------------------
  // _handle_response

  /** The variables of the block loop: the history, `assistant_content`, the
      text parts, the records, and (for the proofs) every history sent. */
  datatype Walk = Walk(history: seq<Turn>, shared: seq<Block>, parts: seq<string>,
                       records: seq<ToolCallRecord>, requests: seq<seq<Sent>>)

  /** The loop ran through all blocks, or a follow-up call raised. */
  datatype WalkEnd = Completed(w: Walk) | Aborted(error: string, w: Walk)

  /** The loop over `blocks[i..]` from `w`. */
  function Steps(call: ToolOracle, model: ClaudeModel, blocks: seq<Block>, i: nat, w: Walk): WalkEnd
    requires i <= |blocks|
    decreases |blocks| - i
  {
    if i == |blocks| then Completed(w)
    else
      match blocks[i]
      case OtherBlock(_) => Steps(call, model, blocks, i + 1, w)
      case TextBlock(t) => Steps(call, model, blocks, i + 1, w.(parts := w.parts + [t], shared := w.shared + [blocks[i]]))
      case ToolUse(id, name, input) =>
        var rec := ToolCall(name, input, call(name, input));
        var shared := w.shared + [blocks[i]];
        var history := w.history + [SharedAssistant, ToolResult(id, rec.result)];
        var sent := Resolve(history, shared);
        var w' := Walk(history, shared, w.parts, w.records + [rec], w.requests + [sent]);
        match model(sent)
        case Err(m) => Aborted(m, w')
        case Ok(follow) => Steps(call, model, blocks, i + 1, w'.(parts := w'.parts + Texts(follow)))
  }

  function Begin(history: seq<Turn>): Walk
  {
    Walk(history, [], [], [], [])
  }

  /** The dictionary `_handle_response` returns. */
  function HandleResult(requestId: string, call: ToolOracle, model: ClaudeModel,
                        blocks: seq<Block>, history: seq<Turn>): QueryResult
  {
    match Steps(call, model, blocks, 0, Begin(history))
    case Completed(w) =>
      var text := Join(w.parts, "\n");
      QueryResult(requestId, true, text, w.records, text, None)
    case Aborted(m, w) => QueryResult(requestId, false, "", w.records, "", Some(m))
  }

  /** `_handle_response(response, messages, tools, request_id)`, block by
      block; `history` is the list `messages` on entry and `finalHistory`
      what it holds on return. */
  method HandleResponse(requestId: string, call: ToolOracle, model: ClaudeModel,
                        blocks: seq<Block>, history: seq<Turn>)
    returns (result: QueryResult, finalHistory: seq<Turn>)
    ensures result == HandleResult(requestId, call, model, blocks, history)
    ensures var end := Steps(call, model, blocks, 0, Begin(history)); finalHistory == end.w.history
  {
    ghost var goal := Steps(call, model, blocks, 0, Begin(history));
    var messages := history;
    var assistantContent: seq<Block> := [];
    var parts: seq<string> := [];
    var records: seq<ToolCallRecord> := [];
    ghost var requests: seq<seq<Sent>> := [];
    var i := 0;
    while i < |blocks|
      invariant 0 <= i <= |blocks|
      invariant Steps(call, model, blocks, i, Walk(messages, assistantContent, parts, records, requests)) == goal
      decreases |blocks| - i
    {
      ghost var before := Walk(messages, assistantContent, parts, records, requests);
      assert goal == Steps(call, model, blocks, i, before);
      var block := blocks[i];
      if block.TextBlock? {
        parts := parts + [block.text];
        assistantContent := assistantContent + [block];
      } else if block.ToolUse? {
        var rec := ToolCall(block.name, block.input, call(block.name, block.input));
        records := records + [rec];
        assistantContent := assistantContent + [block];
        messages := messages + [SharedAssistant];
        messages := messages + [ToolResult(block.id, rec.result)];
        assert messages == before.history + [SharedAssistant, ToolResult(block.id, rec.result)];
        var sent := Resolve(messages, assistantContent);
        requests := requests + [sent];
        var followUp := model(sent);
        if followUp.Err? {
          assert goal == Aborted(followUp.error, Walk(messages, assistantContent, parts, records, requests));
          return QueryResult(requestId, false, "", records, "", Some(followUp.error)), messages;
        }
        parts := parts + Texts(followUp.value);
        assert goal == Steps(call, model, blocks, i + 1, Walk(messages, assistantContent, parts, records, requests));
      }
      i := i + 1;
    }
    var text := Join(parts, "\n");
    return QueryResult(requestId, true, text, records, text, None), messages;
  }

  // ---------------------------------------------------------------------------
  // Properties of the block loop

  /** The `(name, input)` of the tool uses, in order. */
  function UseCalls(blocks: seq<Block>): (calls: seq<(string, Value)>)
    ensures |calls| <= |blocks|
  {
    if blocks == [] then []
    else (if blocks[0].ToolUse? then [(blocks[0].name, blocks[0].input)] else []) + UseCalls(blocks[1..])
  }

  /** The walk a non-tool block leads to. */
  function Skip(b: Block, w: Walk): Walk
  {
    if b.TextBlock? then w.(parts := w.parts + [b.text], shared := w.shared + [b]) else w
  }

  lemma StepOther(call: ToolOracle, model: ClaudeModel, blocks: seq<Block>, i: nat, w: Walk)
    requires i < |blocks| && !blocks[i].ToolUse?
    ensures Steps(call, model, blocks, i, w) == Steps(call, model, blocks, i + 1, Skip(blocks[i], w))
  {
  }

  /** The loop only appends: to the history two entries per tool use
      handled, and one record and one request per tool use handled. */
  lemma {:induction false} StepsAppend(call: ToolOracle, model: ClaudeModel, blocks: seq<Block>, i: nat, w: Walk)
    requires i <= |blocks|
    ensures var end := Steps(call, model, blocks, i, w);
      && w.records <= end.w.records
      && w.history <= end.w.history
      && w.requests <= end.w.requests
      && |end.w.requests| - |w.requests| == |end.w.records| - |w.records|
      && |end.w.history| - |w.history| == 2 * (|end.w.records| - |w.records|)
    decreases |blocks| - i
  {
    if i < |blocks| {
      var b := blocks[i];
      if b.ToolUse? {
        StepToolUse(call, model, blocks, i, w);
        var rec := ToolCall(b.name, b.input, call(b.name, b.input));
        var shared := w.shared + [b];
        var history := w.history + [SharedAssistant, ToolResult(b.id, rec.result)];
        var sent := Resolve(history, shared);
        var w' := Walk(history, shared, w.parts, w.records + [rec], w.requests + [sent]);
        if model(sent).Ok? {
          StepsAppend(call, model, blocks, i + 1, w'.(parts := w'.parts + Texts(model(sent).value)));
        }
      } else {
        StepOther(call, model, blocks, i, w);
        StepsAppend(call, model, blocks, i + 1, Skip(b, w));
      }
    }
  }

  /** The records are made for the tool uses in order, one each: all of them
      when the loop completes, and at least one when a follow-up call
      raised. */
  lemma {:induction false} StepsInvoke(call: ToolOracle, model: ClaudeModel, blocks: seq<Block>, i: nat, w: Walk)
    requires i <= |blocks|
    ensures var end := Steps(call, model, blocks, i, w);
      Invocations(end.w.records) <= Invocations(w.records) + UseCalls(blocks[i..])
    ensures var end := Steps(call, model, blocks, i, w);
      end.Completed? ==> Invocations(end.w.records) == Invocations(w.records) + UseCalls(blocks[i..])
    ensures var end := Steps(call, model, blocks, i, w);
      end.Aborted? ==> |end.w.records| > |w.records|
    decreases |blocks| - i
  {
    if i < |blocks| {
      var b := blocks[i];
      assert blocks[i..][0] == b && blocks[i..][1..] == blocks[i + 1..];
      if b.ToolUse? {
        StepToolUse(call, model, blocks, i, w);
        var rec := ToolCall(b.name, b.input, call(b.name, b.input));
        var shared := w.shared + [b];
        var history := w.history + [SharedAssistant, ToolResult(b.id, rec.result)];
        var sent := Resolve(history, shared);
        var w' := Walk(history, shared, w.parts, w.records + [rec], w.requests + [sent]);
        assert UseCalls(blocks[i..]) == [(b.name, b.input)] + UseCalls(blocks[i + 1..]);
        assert Invocations(w'.records) == Invocations(w.records) + [(b.name, b.input)];
        if model(sent).Ok? {
          StepsInvoke(call, model, blocks, i + 1, w'.(parts := w'.parts + Texts(model(sent).value)));
        }
      } else {
        assert UseCalls(blocks[i..]) == UseCalls(blocks[i + 1..]);
        StepOther(call, model, blocks, i, w);
        StepsInvoke(call, model, blocks, i + 1, Skip(b, w));
      }
    } else {
      assert blocks[i..] == [];
    }
  }

  /** Every history sent to the endpoint shows all of its assistant entries
      with the same content: the blocks seen so far up to and including the
      tool use being answered, also in the entries appended before that tool
      use was seen. */
  lemma {:induction false} SharedAssistantContent(call: ToolOracle, model: ClaudeModel, blocks: seq<Block>, i: nat, w: Walk)
    requires i <= |blocks|
    requires AllAgree(w.requests)
    ensures AllAgree(Steps(call, model, blocks, i, w).w.requests)
    decreases |blocks| - i
  {
    if i < |blocks| {
      var b := blocks[i];
      if b.ToolUse? {
        StepToolUse(call, model, blocks, i, w);
        var rec := ToolCall(b.name, b.input, call(b.name, b.input));
        var shared := w.shared + [b];
        var history := w.history + [SharedAssistant, ToolResult(b.id, rec.result)];
        var sent := Resolve(history, shared);
        var w' := Walk(history, shared, w.parts, w.records + [rec], w.requests + [sent]);
        ResolveAgrees(history, shared);
        AllAgreeSnoc(w.requests, sent);
        if model(sent).Ok? {
          SharedAssistantContent(call, model, blocks, i + 1, w'.(parts := w'.parts + Texts(model(sent).value)));
        }
      } else {
        StepOther(call, model, blocks, i, w);
        SharedAssistantContent(call, model, blocks, i + 1, Skip(b, w));
      }
    }
  }

  /** Every request of the list satisfies `AssistantsAgree`. */
  predicate AllAgree(requests: seq<seq<Sent>>)
  {
    forall q :: 0 <= q < |requests| ==> AssistantsAgree(requests[q])
  }

  lemma AllAgreeSnoc(requests: seq<seq<Sent>>, sent: seq<Sent>)
    requires AllAgree(requests) && AssistantsAgree(sent)
    ensures AllAgree(requests + [sent])
  {
    forall q | 0 <= q < |requests| + 1 ensures AssistantsAgree((requests + [sent])[q]) {
      if q < |requests| {
        assert (requests + [sent])[q] == requests[q];
      }
    }
  }

  lemma ResolveAgrees(history: seq<Turn>, shared: seq<Block>)
    ensures AssistantsAgree(Resolve(history, shared))
  {
  }

  /** The answer text parts for `blocks` given the follow-up replies in
      order: each text block's text, and for each tool use the texts of the
      next follow-up reply. */
  function AnswerParts(blocks: seq<Block>, follows: seq<seq<Block>>): seq<string>
  {
    if blocks == [] then []
    else
      match blocks[0]
      case TextBlock(t) => [t] + AnswerParts(blocks[1..], follows)
      case OtherBlock(_) => AnswerParts(blocks[1..], follows)
      case ToolUse(_, _, _) =>
        if follows == [] then AnswerParts(blocks[1..], [])
        else Texts(follows[0]) + AnswerParts(blocks[1..], follows[1..])
  }

  /** The replies the endpoint gave to the requests, in order (`[]` for a
      request it failed on). */
  function Replies(model: ClaudeModel, requests: seq<seq<Sent>>): (rs: seq<seq<Block>>)
    ensures |rs| == |requests|
  {
    if requests == [] then []
    else (match model(requests[0]) case Ok(b) => [b] case Err(_) => [[]]) + Replies(model, requests[1..])
  }

  /** A completed loop has asked one follow-up per tool use, each answered,
      and its parts are, in block order, the texts of the text blocks and of
      the follow-up replies. */
  lemma {:induction false} StepsParts(call: ToolOracle, model: ClaudeModel, blocks: seq<Block>, i: nat, w: Walk)
    requires i <= |blocks|
    ensures var end := Steps(call, model, blocks, i, w);
      end.Completed? ==>
        && |w.requests| <= |end.w.requests|
        && (forall q :: |w.requests| <= q < |end.w.requests| ==> model(end.w.requests[q]).Ok?)
        && end.w.parts == w.parts + AnswerParts(blocks[i..], Replies(model, end.w.requests[|w.requests|..]))
    decreases |blocks| - i
  {
    StepsAppend(call, model, blocks, i, w);
    if i < |blocks| {
      var b := blocks[i];
      assert blocks[i..][0] == b && blocks[i..][1..] == blocks[i + 1..];
      if b.ToolUse? {
        StepToolUse(call, model, blocks, i, w);
        var rec := ToolCall(b.name, b.input, call(b.name, b.input));
        var shared := w.shared + [b];
        var history := w.history + [SharedAssistant, ToolResult(b.id, rec.result)];
        var sent := Resolve(history, shared);
        var w' := Walk(history, shared, w.parts, w.records + [rec], w.requests + [sent]);
        if model(sent).Ok? {
          var follow := model(sent).value;
          var w2 := w'.(parts := w'.parts + Texts(follow));
          StepsAppend(call, model, blocks, i + 1, w2);
          StepsParts(call, model, blocks, i + 1, w2);
          var end := Steps(call, model, blocks, i + 1, w2);
          var asked := end.w.requests[|w.requests|..];
          assert asked == [sent] + end.w.requests[|w2.requests|..];
          assert Replies(model, asked) == [follow] + Replies(model, end.w.requests[|w2.requests|..]);
        }
      } else {
        StepOther(call, model, blocks, i, w);
        StepsParts(call, model, blocks, i + 1, Skip(b, w));
      }
    } else {
      assert blocks[i..] == [];
    }
  }

  /** On success the response is the answer parts, text blocks of the first
      reply and texts of the follow-up replies in block order, joined by
      newlines. */
  lemma ResponseText(requestId: string, call: ToolOracle, model: ClaudeModel, blocks: seq<Block>, history: seq<Turn>)
    ensures var end := Steps(call, model, blocks, 0, Begin(history));
      var r := HandleResult(requestId, call, model, blocks, history);
      r.success <==> end.Completed?
    ensures var end := Steps(call, model, blocks, 0, Begin(history));
      var r := HandleResult(requestId, call, model, blocks, history);
      r.success ==> r.response == Join(AnswerParts(blocks, Replies(model, end.w.requests)), "\n")
  {
    StepsParts(call, model, blocks, 0, Begin(history));
    assert blocks[0..] == blocks;
    var end := Steps(call, model, blocks, 0, Begin(history));
    assert end.w.requests[0..] == end.w.requests;
    if end.Completed? {
      assert end.w.parts == [] + AnswerParts(blocks, Replies(model, end.w.requests));
      assert [] + AnswerParts(blocks, Replies(model, end.w.requests)) == AnswerParts(blocks, Replies(model, end.w.requests));
    }
  }

  /** One step of the loop at a tool use. */
  lemma StepToolUse(call: ToolOracle, model: ClaudeModel, blocks: seq<Block>, i: nat, w: Walk)
    requires i < |blocks| && blocks[i].ToolUse?
    ensures var b := blocks[i];
      var rec := ToolCall(b.name, b.input, call(b.name, b.input));
      var shared := w.shared + [b];
      var history := w.history + [SharedAssistant, ToolResult(b.id, rec.result)];
      var sent := Resolve(history, shared);
      var w' := Walk(history, shared, w.parts, w.records + [rec], w.requests + [sent]);
      Steps(call, model, blocks, i, w) ==
        match model(sent)
        case Err(m) => Aborted(m, w')
        case Ok(follow) => Steps(call, model, blocks, i + 1, w'.(parts := w'.parts + Texts(follow)))
  {
  }

  /** All assistant entries of a sent history carry the same blocks. */
  predicate AssistantsAgree(sent: seq<Sent>)
  {
    forall k, l :: 0 <= k < |sent| && 0 <= l < |sent| && sent[k].SentAssistant? && sent[l].SentAssistant? ==>
      sent[k].blocks == sent[l].blocks
  }

  /** Two tool uses in one reply: the second follow-up call is sent the
      first assistant entry already holding the second tool use, ahead of the
      result for the first one only. */
  lemma SecondFollowUpSeesBothToolUses(call: ToolOracle, model: ClaudeModel, query: string,
                                       a: Block, b: Block, first: seq<Block>)
    requires a.ToolUse? && b.ToolUse?
    requires model(Resolve([UserTurn(query), SharedAssistant, ToolResult(a.id, ToolCall(a.name, a.input, call(a.name, a.input)).result)], [a])) == Ok(first)
    ensures var end := Steps(call, model, [a, b], 0, Begin([UserTurn(query)]));
      && |end.w.requests| == 2 && |end.w.requests[1]| == 5
      && end.w.requests[1][1] == SentAssistant([a, b])
      && end.w.requests[1][2] == SentToolResult(a.id, ToolCall(a.name, a.input, call(a.name, a.input)).result)
      && end.w.requests[1][3] == SentAssistant([a, b])
  {
    var ra := ToolCall(a.name, a.input, call(a.name, a.input));
    var h1 := [UserTurn(query), SharedAssistant, ToolResult(a.id, ra.result)];
    var w0 := Begin([UserTurn(query)]);
    assert w0.history + [SharedAssistant, ToolResult(a.id, ra.result)] == h1;
    assert w0.shared + [a] == [a];
    assert model(Resolve(h1, [a])) == Ok(first);
    var w1 := Walk(h1, [a], w0.parts + Texts(first), w0.records + [ra], w0.requests + [Resolve(h1, [a])]);
    StepToolUse(call, model, [a, b], 0, w0);
    assert Steps(call, model, [a, b], 0, w0) == Steps(call, model, [a, b], 1, w1);
    var rb := ToolCall(b.name, b.input, call(b.name, b.input));
    var h2 := h1 + [SharedAssistant, ToolResult(b.id, rb.result)];
    var sent2 := Resolve(h2, [a, b]);
    assert [a] + [b] == [a, b];
    var w2 := Walk(h2, [a, b], w1.parts, [ra, rb], [Resolve(h1, [a]), sent2]);
    var end := Steps(call, model, [a, b], 1, w1);
    assert end.w.requests == w2.requests;
    assert h2[1].SharedAssistant? && h2[2].ToolResult? && h2[3].SharedAssistant?;
  }

  /** On success the answer is every text part joined by newlines, one
      record per tool use; on failure the text is empty, the endpoint's error
      is reported and the records made so far are kept. */
  lemma ResultShape(requestId: string, call: ToolOracle, model: ClaudeModel, blocks: seq<Block>, history: seq<Turn>)
    ensures var r := HandleResult(requestId, call, model, blocks, history);
      && r.requestId == requestId
      && r.response == r.finalAnswer
      && (r.success <==> r.error.None?)
      && (!r.success ==> r.response == "" && r.toolCalls != [] && Invocations(r.toolCalls) <= UseCalls(blocks))
      && (r.success ==> Invocations(r.toolCalls) == UseCalls(blocks))
  {
    StepsInvoke(call, model, blocks, 0, Begin(history));
    assert blocks[0..] == blocks;
    assert Invocations([]) == [];
  }

  // ---------------------------------------------------------------------------
  // The handler object: _prepare_tools, process_query, clear_tools_cache

  /** The first endpoint call of attempt `k` on the system prompt and the
      history. */
  type FirstCall = (nat, string, seq<Sent>) -> Result<seq<Block>, string>

  function QueryAttempt(k: nat, requestId: string, call: ToolOracle, model: ClaudeModel, first: FirstCall,
                        system: string, history: seq<Turn>): Helpers.Attempt<QueryResult>
  {
    match first(k, system, Resolve(history, []))
    case Err(m) => Helpers.Raised(Raise(ClaudeAPI, QueryFailed + m))
    case Ok(blocks) => Helpers.Returned(HandleResult(requestId, call, model, blocks, history))
  }

  /** The attempts of `process_query` under `retry_async(max_retries=2,
      delay=1.0)`: only the first endpoint call can raise out of an attempt. */
  method RetryQuery(requestIds: nat -> string, call: ToolOracle, model: ClaudeModel, first: FirstCall,
                    system: string, history: seq<Turn>)
    returns (r: Result<QueryResult, Exc>, attempts: nat)
    ensures 1 <= attempts <= 3
    ensures forall k :: 0 <= k < attempts - 1 ==> first(k, system, Resolve(history, [])).Err?
    ensures r.Ok? ==>
      && first(attempts - 1, system, Resolve(history, [])).Ok?
      && r.value == HandleResult(requestIds(attempts - 1), call, model, first(attempts - 1, system, Resolve(history, [])).value, history)
    ensures r.Err? ==>
      && attempts == 3 && first(2, system, Resolve(history, [])).Err?
      && r.error == Raise(ClaudeAPI, QueryFailed + first(2, system, Resolve(history, [])).error)
  {
    var attempt := (k: nat) => QueryAttempt(k, requestIds(k), call, model, first, system, history);
    var sleeps;
    r, attempts, sleeps := Helpers.Retry(2, 1.0, 2.0, (e: Exc) => true, attempt);
    assert attempt(attempts - 1) == QueryAttempt(attempts - 1, requestIds(attempts - 1), call, model, first, system, history);
    forall k | 0 <= k < attempts - 1 ensures first(k, system, Resolve(history, [])).Err? {
      assert attempt(k) == QueryAttempt(k, requestIds(k), call, model, first, system, history);
    }
  }

  class Handler {
    const tools: ToolsCache

    constructor()
      ensures fresh(tools) && tools.cache == None
    {
      tools := new ToolsCache();
    }

    /** `_prepare_tools()` and `get_available_tools()`: the catalog entries
        keep their name, description and input schema, so the cached list is
        the listed one. */
    method GetAvailableTools(listing: Result<seq<ToolInfo>, Exc>) returns (claudeTools: seq<ToolInfo>)
      modifies tools
      ensures old(tools.cache).Some? ==> claudeTools == old(tools.cache).value
      ensures old(tools.cache).None? ==> claudeTools == (if listing.Ok? then listing.value else [])
      ensures tools.cache == Some(claudeTools)
    {
      var queried;
      claudeTools, queried := tools.Prepare(listing);
    }

    /** `process_query(query, context, system_prompt)` */
    method ProcessQuery(query: string, context: Option<Entries>, systemPrompt: Option<string>, show: Show,
                        listing: Result<seq<ToolInfo>, Exc>, call: ToolOracle, model: ClaudeModel,
                        first: FirstCall, requestIds: nat -> string)
      returns (r: Result<QueryResult, Exc>, attempts: nat)
      modifies tools
      ensures 1 <= attempts <= 3
      ensures var sent := [SentUser(UserContent(query, context, show))];
        r.Ok? ==>
          && first(attempts - 1, SystemText(systemPrompt), sent).Ok?
          && r.value == HandleResult(requestIds(attempts - 1), call, model, first(attempts - 1, SystemText(systemPrompt), sent).value,
                                     [UserTurn(UserContent(query, context, show))])
      ensures var sent := [SentUser(UserContent(query, context, show))];
        r.Err? ==>
          && attempts == 3 && first(2, SystemText(systemPrompt), sent).Err?
          && r.error == Raise(ClaudeAPI, QueryFailed + first(2, SystemText(systemPrompt), sent).error)
      ensures old(tools.cache).Some? ==> tools.cache == old(tools.cache)
      ensures old(tools.cache).None? ==> tools.cache == Some(if listing.Ok? then listing.value else [])
    {
      var claudeTools := GetAvailableTools(listing);
      var messages := BuildMessages(query, context, show);
      assert Resolve(messages, []) == [SentUser(UserContent(query, context, show))];
      r, attempts := RetryQuery(requestIds, call, model, first, SystemText(systemPrompt), messages);
    }

    /** `clear_tools_cache()` */
    method ClearToolsCache()
      modifies tools
      ensures tools.cache == None
    {
      tools.Clear();
    }
  }
}
