/** The logic `BaseLLMHandler` (`src/mcp_client/base_llm_handler.py`) shares
    with its subclasses: the tools cache, the context text, the normalisation
    of tool results and the record of one tool call. */
module BaseHandler {
  import opened Options
  import opened JsonValue
  import opened Text
  import opened Errors
  import opened AmapClient

  /** The tool provider as the handlers see it: `amap_client.call_tool(name,
      arguments)` with its retries, returning a value or raising. */
  type ToolOracle = (string, Value) -> Result<Value, Exc>

  /** Python's rendering of a value inside an f-string. */
  type Show = Value -> string

  // ---------------------------------------------------------------------------
  // _format_context

  const LocationKey := "location"
  const CityKey := "city"
  const PreferencesKey := "preferences"

  predicate IsFixedKey(k: string)
  {
    k == LocationKey || k == CityKey || k == PreferencesKey
  }

  /** The part for one of the fixed keys, when the context has it. */
  function FixedPart(context: Entries, key: string, caption: string, show: Show): seq<string>
  {
    if HasKey(context, key) then [caption + show(Lookup(context, key).value)] else []
  }

  /** The parts for `location`, `city` and `preferences`, in that order, each
      present when its key is. */
  function FixedParts(context: Entries, show: Show): seq<string>
  {
    FixedPart(context, LocationKey, "当前位置：", show) +
    FixedPart(context, CityKey, "所在城市：", show) +
    FixedPart(context, PreferencesKey, "用户偏好：", show)
  }

  /** `f"{key}：{value}"` */
  function KeyPart(e: (string, Value), show: Show): string
  {
    e.0 + "：" + show(e.1)
  }

  /** One part per entry whose key is not one of the fixed three, in
      insertion order. */
  function OtherParts(context: Entries, show: Show): seq<string>
  {
    if context == [] then []
    else
      var last := context[|context| - 1];
      OtherParts(context[..|context| - 1], show) + (if IsFixedKey(last.0) then [] else [KeyPart(last, show)])
  }

  function ContextParts(context: Entries, show: Show): seq<string>
  {
    FixedParts(context, show) + OtherParts(context, show)
  }

  /** `_format_context(context)`, as the loop of the source builds it. */
  method FormatContext(context: Entries, show: Show) returns (text: string)
    ensures text == Join(ContextParts(context, show), "；")
  {
    if context == [] {
      return "";
    }
    var parts: seq<string> := [];
    parts := AddFixed(parts, context, LocationKey, "当前位置：", show);
    parts := AddFixed(parts, context, CityKey, "所在城市：", show);
    parts := AddFixed(parts, context, PreferencesKey, "用户偏好：", show);
    assert parts == FixedParts(context, show);
    parts := AddOthers(parts, context, show);
    return Join(parts, "；");
  }

  /** The loop of `_format_context` over the remaining keys. */
  method AddOthers(parts: seq<string>, context: Entries, show: Show) returns (next: seq<string>)
    ensures next == parts + OtherParts(context, show)
  {
    next := parts;
    var i := 0;
    while i < |context|
      invariant 0 <= i <= |context|
      invariant next == parts + OtherParts(context[..i], show)
    {
      OtherPartsSnoc(context, i, show);
      if !IsFixedKey(context[i].0) {
        next := next + [KeyPart(context[i], show)];
      }
      i := i + 1;
    }
    assert context[..|context|] == context;
  }

  /** One of the three `if key in context` steps of `_format_context`. */
  method AddFixed(parts: seq<string>, context: Entries, key: string, caption: string, show: Show)
    returns (next: seq<string>)
    ensures next == parts + FixedPart(context, key, caption, show)
  {
    next := parts;
    if HasKey(context, key) {
      next := next + [caption + show(Lookup(context, key).value)];
    }
  }

  lemma OtherPartsSnoc(context: Entries, i: nat, show: Show)
    requires i < |context|
    ensures OtherParts(context[..i + 1], show) ==
      OtherParts(context[..i], show) + (if IsFixedKey(context[i].0) then [] else [KeyPart(context[i], show)])
  {
    assert context[..i + 1][..i] == context[..i] && context[..i + 1][i] == context[i];
  }

  /** Number of entries with key `k`. */
  function KeyCount(context: Entries, k: string): nat
  {
    if context == [] then 0
    else KeyCount(context[..|context| - 1], k) + (if context[|context| - 1].0 == k then 1 else 0)
  }

  lemma {:induction false} KeyCountOfUnique(context: Entries, k: string)
    requires UniqueKeys(context)
    ensures KeyCount(context, k) == if HasKey(context, k) then 1 else 0
  {
    if context != [] {
      var n := |context| - 1;
      var init := context[..n];
      assert UniqueKeys(init) by {
        forall i, j | 0 <= i < j < n ensures init[i].0 != init[j].0 {
          assert init[i] == context[i] && init[j] == context[j];
        }
      }
      KeyCountOfUnique(init, k);
      HasKeyAt(context, k);
      HasKeyAt(init, k);
      if context[n].0 == k {
        forall i | 0 <= i < n ensures init[i].0 != k {
          assert init[i] == context[i];
        }
      } else if HasKey(context, k) {
        var i :| 0 <= i < |context| && context[i].0 == k;
        assert init[i] == context[i];
      }
    }
  }

  lemma {:induction false} OtherPartsCount(context: Entries, show: Show)
    ensures |OtherParts(context, show)| ==
      |context| - KeyCount(context, LocationKey) - KeyCount(context, CityKey) - KeyCount(context, PreferencesKey)
  {
    if context != [] {
      OtherPartsCount(context[..|context| - 1], show);
    }
  }

  /** With the keys of a dictionary distinct, the context text has exactly
      one part per key. */
  lemma ContextPartsPerKey(context: Entries, show: Show)
    requires UniqueKeys(context)
    ensures |ContextParts(context, show)| == |context|
  {
    OtherPartsCount(context, show);
    KeyCountOfUnique(context, LocationKey);
    KeyCountOfUnique(context, CityKey);
    KeyCountOfUnique(context, PreferencesKey);
  }

  lemma {:induction false} JoinNonEmpty(parts: seq<string>, sep: string)
    requires parts != [] && forall i :: 0 <= i < |parts| ==> parts[i] != ""
    ensures Join(parts, sep) != ""
  {
    if |parts| > 1 {
      assert |Join(parts, sep)| >= |parts[0]|;
    }
  }

  lemma {:induction false} OtherPartsNonEmpty(context: Entries, show: Show)
    ensures forall i :: 0 <= i < |OtherParts(context, show)| ==> OtherParts(context, show)[i] != ""
  {
    if context != [] {
      OtherPartsNonEmpty(context[..|context| - 1], show);
    }
  }

  lemma {:induction false} OtherPartsHasKey(context: Entries, show: Show, i: nat)
    requires i < |context| && !IsFixedKey(context[i].0)
    ensures OtherParts(context, show) != []
  {
    if i < |context| - 1 {
      OtherPartsHasKey(context[..|context| - 1], show, i);
    }
  }

  /** The context text is empty exactly when the context is. */
  lemma FormatContextEmpty(context: Entries, show: Show)
    ensures Join(ContextParts(context, show), "；") == "" <==> context == []
  {
    var parts := ContextParts(context, show);
    if context != [] {
      OtherPartsNonEmpty(context, show);
      if !IsFixedKey(context[0].0) {
        OtherPartsHasKey(context, show, 0);
      } else {
        assert HasKey(context, context[0].0) by { assert Keys(context)[0] == context[0].0; }
      }
      JoinNonEmpty(parts, "；");
    }
  }

  /** The user message both handlers build from a query and an optional
      context: the context text in front of the query when there is any. */
  function UserContent(query: string, context: Option<Entries>, show: Show): string
  {
    if context.Some? && context.value != [] then
      var text := Join(ContextParts(context.value, show), "；");
      if text != "" then "上下文信息：" + text + "\n\n用户查询：" + query else query
    else query
  }

  /** A non-empty context always yields a prefix, so the query stands alone
      exactly when there is no context or it is empty. */
  lemma UserContentRule(query: string, context: Option<Entries>, show: Show)
    ensures context.None? || context.value == [] ==> UserContent(query, context, show) == query
    ensures context.Some? && context.value != [] ==>
      UserContent(query, context, show) ==
        "上下文信息：" + Join(ContextParts(context.value, show), "；") + "\n\n用户查询：" + query
  {
    if context.Some? {
      FormatContextEmpty(context.value, show);
    }
  }

  // ---------------------------------------------------------------------------
  // _make_serializable

  function StartsJson(s: string): bool
  {
    StartsWith(Strip(s), "{") || StartsWith(Strip(s), "[")
  }

  /** `_make_serializable(obj)` */
  function MakeSerializable(v: Value, parse: Parser): (r: Value)
    ensures v.Dict? ==> r.Dict? && Keys(r.entries) == Keys(v.entries)
    ensures v.Dict? ==> forall i :: 0 <= i < |v.entries| ==> r.entries[i].1 == MakeSerializable(v.entries[i].1, parse)
    ensures v.Null? || v.Bool? || v.Num? ==> r == v
    ensures v.Str? && !StartsJson(v.s) ==> r == v
    ensures v.Str? && StartsJson(v.s) ==> r == if parse(v.s).Ok? then parse(v.s).value else v
    ensures v.Object? && v.text.Some? ==> r == v.text.value
    ensures v.Object? && v.text.None? && v.content.Some? ==> r == v.content.value
    ensures v.Object? && v.text.None? && v.content.None? ==>
      && r.Dict? && Keys(r.entries) == Keys(v.attrs)
      && forall i :: 0 <= i < |v.attrs| ==> r.entries[i].1 == MakeSerializable(v.attrs[i].1, parse)
    ensures v.List? && !UnwrapsSingle(v.items, parse) ==>
      && r.List? && |r.items| == |v.items|
      && forall i :: 0 <= i < |v.items| ==> r.items[i] == MakeSerializable(v.items[i], parse)
    ensures v.List? && UnwrapsSingle(v.items, parse) ==>
      r == parse(MakeSerializable(v.items[0], parse).s).value
    decreases v
  {
    match v
    case Object(text, content, attrs) =>
      if text.Some? then text.value
      else if content.Some? then content.value
      else Dict(SerializeEntries(v, attrs, parse))
    case List(items) =>
      var out := seq(|items|, i requires 0 <= i < |items| => MakeSerializable(items[i], parse));
      if |out| == 1 && out[0].Str? && parse(out[0].s).Ok? then parse(out[0].s).value
      else List(out)
    case Dict(entries) => Dict(SerializeEntries(v, entries, parse))
    case Str(s) =>
      if StartsJson(s) && parse(s).Ok? then parse(s).value else v
    case _ => v
  }

  /** The list `items` normalises to one string that parses, so
      `_make_serializable` returns the parse instead of the list. */
  predicate UnwrapsSingle(items: seq<Value>, parse: Parser)
    decreases items, 0
  {
    |items| == 1 && MakeSerializable(items[0], parse).Str? && parse(MakeSerializable(items[0], parse).s).Ok?
  }

  /** `{k: _make_serializable(v) for k, v in entries.items()}` */
  function SerializeEntries(ghost parent: Value, entries: Entries, parse: Parser): (r: Entries)
    requires forall i :: 0 <= i < |entries| ==> entries[i].1 < parent
    ensures |r| == |entries| && Keys(r) == Keys(entries)
    ensures forall i :: 0 <= i < |entries| ==> r[i] == (entries[i].0, MakeSerializable(entries[i].1, parse))
    decreases parent, |entries|
  {
    if entries == [] then []
    else [(entries[0].0, MakeSerializable(entries[0].1, parse))] + SerializeEntries(parent, entries[1..], parse)
  }

  /** `json.loads` on JSON text gives JSON data: no instance objects. */
  ghost predicate ParsesPlain(parse: Parser)
  {
    forall s :: parse(s).Ok? ==> Plain(parse(s).value)
  }

  /** Every instance in `v` hands over plain data: its `text`, else its
      `content`, else (recursively) its attributes. */
  predicate PlainPayloads(v: Value)
  {
    match v
    case Object(text, content, attrs) =>
      if text.Some? then Plain(text.value)
      else if content.Some? then Plain(content.value)
      else forall i | 0 <= i < |attrs| :: PlainPayloads(attrs[i].1)
    case List(items) => forall i | 0 <= i < |items| :: PlainPayloads(items[i])
    case Dict(entries) => forall i | 0 <= i < |entries| :: PlainPayloads(entries[i].1)
    case _ => true
  }

  /** Normalisation yields data `json.dumps` accepts, provided the parser
      yields JSON data and the instances inside carry plain payloads. */
  lemma {:induction false} MakeSerializablePlain(v: Value, parse: Parser)
    requires ParsesPlain(parse) && PlainPayloads(v)
    ensures Plain(MakeSerializable(v, parse))
    decreases v
  {
    match v
    case Object(text, content, attrs) =>
      if text.None? && content.None? {
        forall i | 0 <= i < |attrs| ensures Plain(MakeSerializable(attrs[i].1, parse)) {
          assert attrs[i] in attrs;
          MakeSerializablePlain(attrs[i].1, parse);
        }
      }
    case List(items) =>
      forall i | 0 <= i < |items| ensures Plain(MakeSerializable(items[i], parse)) {
        MakeSerializablePlain(items[i], parse);
      }
    case Dict(entries) =>
      forall i | 0 <= i < |entries| ensures Plain(MakeSerializable(entries[i].1, parse)) {
        assert entries[i] in entries;
        MakeSerializablePlain(entries[i].1, parse);
      }
    case _ =>
  }

  /** A one-element list holding a string: the element is normalised first
      and the list is unwrapped when that gives a string that parses. A
      string that does not look like JSON is unwrapped to its parse; one that
      does is parsed by the string rule, so the list stays around a parse
      that is not a string, and a string parse is tried once more. */
  lemma SingleStringList(s: string, parse: Parser)
    ensures !StartsJson(s) ==>
      MakeSerializable(List([Str(s)]), parse) == if parse(s).Ok? then parse(s).value else List([Str(s)])
    ensures StartsJson(s) && parse(s).Err? ==> MakeSerializable(List([Str(s)]), parse) == List([Str(s)])
    ensures StartsJson(s) && parse(s).Ok? && !parse(s).value.Str? ==>
      MakeSerializable(List([Str(s)]), parse) == List([parse(s).value])
    ensures StartsJson(s) && parse(s).Ok? && parse(s).value.Str? ==>
      var t := parse(s).value.s;
      MakeSerializable(List([Str(s)]), parse) == if parse(t).Ok? then parse(t).value else List([Str(t)])
  {
    var e := MakeSerializable(Str(s), parse);
    assert MakeSerializable(List([Str(s)]), parse) == if e.Str? && parse(e.s).Ok? then parse(e.s).value else List([e]);
  }

  /** A parser that reads the JSON text `"{}"` (a quoted string) and `{}`. */
  function QuotedBracesParser(s: string): Result<Value, string>
  {
    if s == "\"{}\"" then Ok(Str("{}"))
    else if s == "{}" then Ok(Dict([]))
    else Err("Expecting value")
  }

  /** Normalising twice can differ from normalising once: `["\"{}\""]`
      becomes the string `"{}"`, which becomes the empty dictionary. */
  lemma MakeSerializableNotIdempotent()
    ensures MakeSerializable(List([Str("\"{}\"")]), QuotedBracesParser) == Str("{}")
    ensures MakeSerializable(Str("{}"), QuotedBracesParser) == Dict([])
  {
    var quoted, braces := "\"{}\"", "{}";
    assert QuotedBracesParser(quoted) == Ok(Str(braces));
    QuotedBracesNotJsonStart();
    SingleStringList(quoted, QuotedBracesParser);
    assert QuotedBracesParser(braces) == Ok(Dict([]));
    BracesJsonStart();
  }

  /** For a string without surrounding whitespace the JSON test looks at
      its first character. */
  lemma StartsJsonOf(s: string)
    requires s != [] && !IsSpace(s[0]) && !IsSpace(s[|s| - 1])
    ensures StartsJson(s) <==> s[0] == '{' || s[0] == '['
  {
    StripNoSpace(s);
  }

  lemma QuotedBracesNotJsonStart()
    ensures !StartsJson("\"{}\"")
  {
    var s := "\"{}\"";
    assert s[0] == '"' && s[|s| - 1] == '"';
    assert !IsSpace('"');
    StartsJsonOf(s);
  }

  lemma BracesJsonStart()
    ensures StartsJson("{}")
  {
    StartsJsonOf("{}");
  }

  // ---------------------------------------------------------------------------
  // _execute_tool_call

  /** The record of one tool call: `tool_name`, `arguments`, `success`,
      `result` and `error` (`None` as `None`). */
  datatype ToolCallRecord = ToolCallRecord(toolName: string, arguments: Value, success: bool, result: Value, error: Option<string>)

  /** The second unwrapping `_execute_tool_call` applies to a normalised
      result: a list holding one string becomes that string's parse. */
  function UnwrapSingleString(v: Value, parse: Parser): Value
  {
    if v.List? && |v.items| == 1 && v.items[0].Str? && parse(v.items[0].s).Ok? then parse(v.items[0].s).value
    else v
  }

  /** `_execute_tool_call(tool_name, tool_arguments, request_id)`, where
      `outcome` is what `call_tool` returned or raised; it never raises. */
  function ExecuteToolCall(name: string, arguments: Value, outcome: Result<Value, Exc>, parse: Parser): (rec: ToolCallRecord)
    ensures rec.toolName == name && rec.arguments == arguments
    ensures rec.success <==> outcome.Ok?
    ensures outcome.Err? ==>
      rec.error == Some(StrOf(outcome.error)) && rec.result == Str("工具调用失败: " + StrOf(outcome.error))
    ensures outcome.Ok? ==> rec.error == None
    ensures outcome.Ok? ==> rec.result == UnwrapSingleString(MakeSerializable(outcome.value, parse), parse)
  {
    match outcome
    case Ok(value) =>
      var serializable := UnwrapSingleString(MakeSerializable(value, parse), parse);
      ToolCallRecord(name, arguments, true, serializable, None)
    case Err(e) =>
      ToolCallRecord(name, arguments, false, Str("工具调用失败: " + StrOf(e)), Some(StrOf(e)))
  }

  /** The usual provider result, a list holding one text content: the
      record carries the parse of the text when it parses (unwrapped once
      more when that parse is itself a one-string list that parses), and the
      one-string list otherwise. */
  lemma TextContentResult(name: string, arguments: Value, s: string, content: Option<Value>, attrs: Entries, parse: Parser)
    ensures var rec := ExecuteToolCall(name, arguments, Ok(List([Object(Some(Str(s)), content, attrs)])), parse);
      && rec.success
      && (parse(s).Err? ==> rec.result == List([Str(s)]))
      && (parse(s).Ok? ==> rec.result == UnwrapSingleString(parse(s).value, parse))
  {
    var obj := Object(Some(Str(s)), content, attrs);
    assert MakeSerializable(obj, parse) == Str(s);
    assert UnwrapsSingle([obj], parse) <==> parse(s).Ok?;
  }

  /** The `(tool_name, arguments)` of each record, in order. */
  function Invocations(records: seq<ToolCallRecord>): seq<(string, Value)>
  {
    seq(|records|, j requires 0 <= j < |records| => (records[j].toolName, records[j].arguments))
  }

  /** The dictionary a handler's `_handle_response` returns: `request_id`,
      `success`, `response`, `tool_calls`, `final_answer`, and `error` when
      `success` is false. */
  datatype QueryResult = QueryResult(requestId: string, success: bool, response: string,
                                     toolCalls: seq<ToolCallRecord>, finalAnswer: string, error: Option<string>)

  // ---------------------------------------------------------------------------
  // _prepare_tools / clear_tools_cache

  /** The part of a handler `_prepare_tools` and `clear_tools_cache` work on. */
  class ToolsCache {
    var cache: Option<seq<ToolInfo>>

    constructor()
      ensures cache == None
    {
      cache := None;
    }

    /** `_prepare_tools()`: `listing` is what `list_available_tools` returns
        or raises; it is asked only while nothing is cached. */
    method Prepare(listing: Result<seq<ToolInfo>, Exc>) returns (tools: seq<ToolInfo>, queried: bool)
      modifies this
      ensures queried <==> old(cache).None?
      ensures old(cache).Some? ==> tools == old(cache).value
      ensures old(cache).None? ==> tools == (if listing.Ok? then listing.value else [])
      ensures cache == Some(tools)
    {
      queried := cache.None?;
      if cache.None? {
        match listing
        case Ok(ts) =>
          cache := Some(ts);
        case Err(_) =>
          cache := Some([]);
      }
      tools := cache.value;
    }

    /** `clear_tools_cache()` */
    method Clear()
      modifies this
      ensures cache == None
    {
      cache := None;
    }
  }
}
