# LLM-Amap-mcp core, modelled in Dafny

This project models the core of the LLM-Amap-mcp address-parsing service. A
chat model (Claude or an OpenAI-compatible endpoint) proposes calls to the
tools of a map-service provider (the Amap MCP server). The handlers run each
call through the provider client and feed the results back to the model. The
HTTP layer turns the outcome into an API response.

The modules:

- `OpenAIHandler` models the bounded multi-turn tool loop of
  `_handle_response`, message building, tool conversion, the proxy priority
  and the retried `process_query`.
- `ClaudeHandler` models the single follow-up per `tool_use` block. This
  includes the assistant content list that is shared by reference between
  history entries.
- `BaseHandler` holds the shared handler logic: the context text,
  `_make_serializable`, `_execute_tool_call` and the tools cache.
- `AmapClient` models the connection state of the provider client as a class
  with connect, disconnect, call, list and health-check operations.
- `Helpers` models the `retry_async` combinator, address and coordinate
  validation, `format_amap_response` and `safe_get`.
- `Processor` models the brace-matching JSON extractor and the batch driver
  of the data processor.
- `DependencyCheck` models parsing and comparing the dependency files.
- `LlmFactory` models the handler registry.
- `Prompts` models the prompt-template registry.
- `Config` models the pure settings helpers and validators.
- `Errors` models the exception taxonomy.
- `AddressRoutes` models the address routes: the create-once globals, the
  exception-to-status mapping and the batch endpoint.

Shared modules:

- `JsonValue` holds Python's dynamic values. A dictionary is an ordered list
  of entries, so insertion order is kept.
- `Options` holds the option and result types.
- `Text` holds `strip`, `split`, `join`, `lower` and `upper`.
- `Dicts` holds dictionary assignment with insertion order.

Everything the program gets from outside becomes a parameter of the model:

- replies of the chat model;
- outcomes of tool calls;
- steps of the connection;
- `json.loads`, `json.dumps` and `float`;
- request identifiers;
- elapsed time.

An operation that keeps state in an object is a class method with a
`modifies` clause. A loop in the source is a method with a loop, proved
against a function that states the result.

## Model

| member | source | states |
|---|---|---|
| OpenAIHandler.ChooseProxy | src/mcp_client/openai_handler.py:72-87 | no proxy exactly when none of the three settings is a non-empty string; otherwise the HTTPS proxy wins over the HTTP proxy, which wins over ALL_PROXY |
| OpenAIHandler.BuildMessages | src/mcp_client/openai_handler.py:180-211 | exactly two messages: the system message (the given prompt, or the default one when it is absent or empty), then the user message built by the context-prefix rule |
| OpenAIHandler.Handler.PrepareOpenAITools | src/mcp_client/openai_handler.py:161-178 | one function tool per cached catalog entry, in catalog order, with name, description and `parameters` equal to the entry's `input_schema`; the catalog is fetched only while nothing is cached, and an empty one is cached when fetching fails |
| OpenAIHandler.HandleCall | src/mcp_client/openai_handler.py:276-307 | unparseable arguments give a `参数解析失败` tool message and no record; parseable ones give a record with the call's name and parsed arguments, and a tool message with the call id that holds the dumped result |
| OpenAIHandler.RunCallsAppend | src/mcp_client/openai_handler.py:276-307 | running a round's calls only appends to the history and to the records |
| OpenAIHandler.RunCallsReplies | src/mcp_client/openai_handler.py:276-307 | when no call fails to serialise, the messages appended are one tool message per call, in emitted order, each with the matching `tool_call_id` |
| OpenAIHandler.RunCallsInvocations | src/mcp_client/openai_handler.py:279-287 | the records appended are exactly the calls whose arguments parse, in order, with their parsed arguments |
| OpenAIHandler.ExecuteCalls | src/mcp_client/openai_handler.py:276-307 | the loop over a round's tool calls computes what the specification function of that round says |
| OpenAIHandler.Round | src/mcp_client/openai_handler.py:238-344 | a round raises the counter by one; it ends the loop without a follow-up exactly when the reply has no tool calls, and it makes one follow-up call when it has some |
| OpenAIHandler.RoundEffect | src/mcp_client/openai_handler.py:238-344 | a round adds the reply's content as a part exactly when it is a non-empty string; a reply without tool calls ends the loop with nothing else changed; a reply with calls that are all handled appends the assistant message with those calls, then one tool message per call in order with its id, records exactly the calls whose arguments parse, and on a failed follow-up adds the error text as one more part |
| OpenAIHandler.HandleResponse | src/mcp_client/openai_handler.py:213-374 | the `while` loop computes the result the round-by-round specification defines |
| OpenAIHandler.DriveCounts | src/mcp_client/openai_handler.py:238-353 | the loop never runs past the bound; an exhausted loop stops exactly at the bound; the number of follow-up calls is the number of rounds, less one when the loop converged; a converged loop ends on a reply without tool calls |
| OpenAIHandler.RoundAppends | src/mcp_client/openai_handler.py:250-307 | a round only appends to the records and to the history |
| OpenAIHandler.DriveKeepsRecords | src/mcp_client/openai_handler.py:229-374 | records gathered before the loop stops are kept, whether it ends normally or by an exception |
| OpenAIHandler.NoticeRule | src/mcp_client/openai_handler.py:346-357 | the response is the parts joined by a newline, with the "工具调用次数过多" notice added exactly when the counter has reached the bound; this includes convergence in the last allowed round, and it always happens for a bound of 0 or less |
| OpenAIHandler.ConvergedInLastRoundNotices | src/mcp_client/openai_handler.py:346-353 | with a bound of 1, a reply without tool calls still gets the iteration notice |
| OpenAIHandler.RoundFollowUpFailure | src/mcp_client/openai_handler.py:336-344 | a round that ends the loop because the follow-up call failed has appended `无法完成后续回答: …` as its last part |
| OpenAIHandler.FollowUpFailureLast | src/mcp_client/openai_handler.py:336-344 | a loop stopped by a failed follow-up call ends with that error part |
| OpenAIHandler.FollowUpFailureKeepsSuccess | src/mcp_client/openai_handler.py:336-357 | a failed follow-up call keeps `success` true and no `error` |
| OpenAIHandler.ResultShape | src/mcp_client/openai_handler.py:221-374 | the result carries the request id; `response` equals `final_answer`; `success` holds exactly when there is no `error`; a failed result has an empty response |
| OpenAIHandler.MissingBoundAlwaysFails | src/mcp_client/openai_handler.py:235 | with the bound setting undeclared, every response yields `success=False`, no records and the attribute error's text |
| OpenAIHandler.RetryQuery | src/mcp_client/openai_handler.py:92-159 | at most three attempts; every attempt before the last failed its first endpoint call; success is the handled first reply that went through; after three failures the error is `ClaudeAPIError("查询处理失败: OpenAI API调用失败: …")` |
| OpenAIHandler.Handler.constructor | src/mcp_client/base_llm_handler.py:19-25 | a new handler starts with an empty tools cache |
| OpenAIHandler.Handler.ProcessQuery | src/mcp_client/openai_handler.py:93-159 | the retried query runs on the two built messages, and the tools cache is filled once |
| ClaudeHandler.Resolve | src/mcp_client/claude_handler.py:204-232 | the history sent to the endpoint has one entry per history turn; every assistant turn shows the current contents of the one shared `assistant_content` list |
| ClaudeHandler.BuildMessages | src/mcp_client/claude_handler.py:112-139 | exactly one user message, built by the context-prefix rule |
| ClaudeHandler.ToolCall | src/mcp_client/claude_handler.py:260-301 | the record has the block's name and input; success holds exactly when the call returned, and then the result is the returned value; on failure `error` is the exception text and the result is `工具调用失败: …` |
| ClaudeHandler.HandleResponse | src/mcp_client/claude_handler.py:185-258 | the block walk computes the result and the final history the specification defines |
| ClaudeHandler.StepsAppend | src/mcp_client/claude_handler.py:206-240 | each `tool_use` block adds one record, one assistant message and one tool-result message, and makes one follow-up call |
| ClaudeHandler.StepsInvoke | src/mcp_client/claude_handler.py:206-245 | the tools run are the first reply's `tool_use` blocks, in order, and all of them run when the walk completes; blocks of follow-up replies never run; an aborted walk has recorded the call whose follow-up failed |
| ClaudeHandler.SharedAssistantContent | src/mcp_client/claude_handler.py:204-221 | within every request sent, all assistant entries carry the same content |
| ClaudeHandler.SecondFollowUpSeesBothToolUses | src/mcp_client/claude_handler.py:215-240 | with two `tool_use` blocks, the second follow-up request shows both blocks in both assistant entries, including the earlier one |
| ClaudeHandler.StepsParts | src/mcp_client/claude_handler.py:204-245 | a completed block loop has had every follow-up request answered, and its text parts are, in block order, the text of each text block and the texts of the follow-up reply to each `tool_use` block |
| ClaudeHandler.ResponseText | src/mcp_client/claude_handler.py:204-258 | the result succeeds exactly when the block loop completes, and then `response` is those parts joined by newlines |
| ClaudeHandler.ResultShape | src/mcp_client/claude_handler.py:193-258 | the request id is kept; `response` equals `final_answer`; success holds exactly when there is no `error`; a successful result records exactly the `tool_use` calls in order; a failed one has a non-empty prefix of them |
| ClaudeHandler.RetryQuery | src/mcp_client/claude_handler.py:32-85 | at most three attempts; earlier attempts failed their first call; success is the handled reply; after three failures the error is `ClaudeAPIError("查询处理失败: …")` |
| ClaudeHandler.Handler.constructor | src/mcp_client/claude_handler.py:29-30 | the tools cache starts empty |
| ClaudeHandler.Handler.GetAvailableTools | src/mcp_client/claude_handler.py:87-110 | the cached tools when present; otherwise the listed tools, or `[]` when listing fails; that value is cached |
| ClaudeHandler.Handler.ProcessQuery | src/mcp_client/claude_handler.py:33-85 | the retried query runs on the one built user message and the system prompt (the given one, or the built-in one when it is absent or empty); the tools cache is filled once |
| ClaudeHandler.Handler.ClearToolsCache | src/mcp_client/claude_handler.py:307-309 | the cache is reset to none |
| BaseHandler.FormatContext | src/mcp_client/base_llm_handler.py:95-117 | the text is the `；`-join of the location, city and preferences parts, each present when its key is, followed by one `key：value` part per other entry in insertion order |
| BaseHandler.AddOthers | src/mcp_client/base_llm_handler.py:113-115 | the loop appends one part per non-fixed key, in order |
| BaseHandler.AddFixed | src/mcp_client/base_llm_handler.py:103-110 | a fixed key adds its captioned part when present, and nothing otherwise |
| BaseHandler.OtherPartsCount | src/mcp_client/base_llm_handler.py:112-115 | the other parts number the entries whose key is not one of the fixed three |
| BaseHandler.ContextPartsPerKey | src/mcp_client/base_llm_handler.py:100-117 | with distinct keys, there is exactly one part per key |
| BaseHandler.FormatContextEmpty | src/mcp_client/base_llm_handler.py:97-117 | the context text is empty exactly when the context is |
| BaseHandler.UserContentRule | src/mcp_client/openai_handler.py:196-204 | the query gets the `上下文信息：…\n\n用户查询：` prefix exactly when a non-empty context is given; otherwise it stands alone |
| BaseHandler.MakeSerializable | src/mcp_client/base_llm_handler.py:182-221 | a dictionary keeps its keys, in order, with each value normalised; `None`, booleans and numbers are unchanged; a string not starting with `{` or `[` after stripping is unchanged, and one that does becomes its parse when it parses and stays unchanged otherwise; an instance gives its `text`, else its `content`, unnormalised, else its attributes as a normalised dictionary; a list is normalised element by element, in order and at the same length, unless that gives one string that parses, in which case the result is that parse |
| BaseHandler.SerializeEntries | src/mcp_client/base_llm_handler.py:209-210 | the dictionary comprehension normalises each value under the same key |
| BaseHandler.MakeSerializablePlain | src/mcp_client/base_llm_handler.py:182-221 | the result holds no instance objects, so `json.dumps` accepts it, given a parser that yields JSON data and instances with plain payloads |
| BaseHandler.SingleStringList | src/mcp_client/base_llm_handler.py:195-216 | a one-element list holding any string: a string that does not look like JSON becomes its parse when it parses; one that does is first parsed by the string rule, so the list stays around a parse that is not a string, a string parse is tried once more, and an unparseable string leaves the list as it is |
| BaseHandler.MakeSerializableNotIdempotent | src/mcp_client/base_llm_handler.py:195-216 | normalising `["\"{}\""]` gives the string `"{}"`, and normalising that gives the empty dictionary |
| BaseHandler.StartsJsonOf | src/mcp_client/base_llm_handler.py:214 | for a string without surrounding whitespace, the JSON test is its first character being `{` or `[` |
| BaseHandler.ExecuteToolCall | src/mcp_client/base_llm_handler.py:119-180 | the record has the given name and arguments; success holds exactly when the call returned; on success the result is the normalised value, unwrapped once more when it is a one-string list that parses; on failure `error` is the exception text and the result is `工具调用失败: …`; it never raises |
| BaseHandler.TextContentResult | src/mcp_client/base_llm_handler.py:142-166 | for the usual provider result, a list holding one text content, the record carries the text's parse when the text parses (unwrapped once more when that parse is a one-string list that parses) and the one-string list otherwise |
| BaseHandler.ToolsCache.constructor | src/mcp_client/base_llm_handler.py:24-25 | the cache starts as none |
| BaseHandler.ToolsCache.Prepare | src/mcp_client/base_llm_handler.py:66-89 | the provider is asked only while nothing is cached; its list, or `[]` on failure, is cached and returned; a cached list is returned unchanged |
| BaseHandler.ToolsCache.Clear | src/mcp_client/base_llm_handler.py:61-63 | the cache is reset to none |
| AmapClient.ToolAvailable | src/mcp_client/amap_client.py:293-298 | false for a missing or empty catalog, otherwise name membership |
| AmapClient.AttemptCall | src/mcp_client/amap_client.py:115-138 | without a connection or session, `MCPConnectionError`; with a tool outside the catalog, `ToolCallError` and no session call; it returns exactly when the session call returns, with that result's content |
| AmapClient.Client.constructor | src/mcp_client/amap_client.py:29-44 | a new client is not connected, has no session, transport or process, and has no catalog |
| AmapClient.Client.Disconnect | src/mcp_client/amap_client.py:74-101 | afterwards there is no session, transport or catalog and the client is not connected; the process record is dropped only when stopping it goes through |
| AmapClient.Client.LoadAvailableTools | src/mcp_client/amap_client.py:277-291 | the catalog becomes the listed tools in order, or `[]` when listing raises; nothing else changes |
| AmapClient.Client.Connect | src/mcp_client/amap_client.py:46-72 | it succeeds exactly when all four steps do, and then the client is connected with its session and catalog; any failure disconnects and raises `MCPConnectionError("连接失败: …")` |
| AmapClient.Client.IsToolAvailable | src/mcp_client/amap_client.py:293-298 | true exactly when the catalog is present and lists the name |
| AmapClient.Client.CallTool | src/mcp_client/amap_client.py:103-138 | at most four session calls, each with the given name and arguments, and at most three sleeps of 1, 2 and 4 seconds; not connected gives `MCPConnectionError` and an unknown tool gives `ToolCallError`, both with no session call; success returns the content of the last call; every session call before the last failed, so content on the first call is returned after exactly one session call |
| AmapClient.Client.ListAvailableTools | src/mcp_client/amap_client.py:140-153 | not connected raises; a cached catalog is returned as is; otherwise it is loaded once and cached |
| AmapClient.Client.HealthCheck | src/mcp_client/amap_client.py:155-172 | healthy exactly when connected, with a session, and the probe answers; the state never changes |
| AmapClient.RetrySleeps | src/mcp_client/amap_client.py:103 | the decorator's delays are 1, 2 and 4 seconds |
| Helpers.KeywordImpliesCjk | src/utils/helpers.py:33-39 | every address keyword is a CJK character, so the keyword test adds nothing to the character test |
| Helpers.ValidateAddress | src/utils/helpers.py:12-39 | valid exactly when the input is a string whose stripped form has 2 to 200 characters, one of them in U+4E00–U+9FFF |
| Helpers.ParseCoordinates | src/utils/helpers.py:42-73 | a pair exactly when the non-empty input, once stripped and rid of spaces, splits on `,` into two parts that parse as numbers within [-180, 180] × [-90, 90]; the pair is those numbers |
| Helpers.ParseCoordinatesNeedsOneComma | src/utils/helpers.py:57-61 | without exactly one comma there is no pair |
| Helpers.ValidateCoordinates | src/utils/helpers.py:224-250 | valid exactly when 73 ≤ longitude ≤ 135 and 18 ≤ latitude ≤ 54 |
| Helpers.Envelope | src/utils/helpers.py:90-94 | the formatted reply has the keys `success`, `data` and `raw_response` in that order, and no `error` |
| Helpers.FormatAmapResponse | src/utils/helpers.py:76-134 | a non-dictionary gives only the error entry; a dictionary gives `raw_response`, and `success=False` with an `error` exactly when it is an error reply (`info` present and `status` not `"1"`, with no geocodes or regeocode); it raises only inside the `geocodes` or `regeocode` branch |
| Helpers.FormatAmapResponseData | src/utils/helpers.py:91-134 | `data` is empty for a falsy `geocodes`; it holds the first geocode's fields, and the call raises unless that geocode is a dictionary; it holds the `regeocode` fields, and the call raises unless `regeocode` is a dictionary; it is empty for an error reply or any other dictionary |
| Helpers.ErrorReplyReportsCode | src/utils/helpers.py:127-132 | an error reply is reported with its `infocode` and `info` |
| Helpers.GeocodeReplyUsesFirst | src/utils/helpers.py:97-112 | a geocode reply takes its fields from the first geocode |
| Helpers.WalkAppend | src/utils/helpers.py:197-203 | following a path is following its first part, then the rest |
| Helpers.SafeGet | src/utils/helpers.py:182-205 | a non-dictionary root gives the default; otherwise the result is the value at the dotted path, or the default when a step is missing or not a dictionary |
| Helpers.Follow | src/utils/helpers.py:200-205 | the loop over the keys reaches the nested value, or falls back to the default |
| Helpers.DottedPath | src/utils/helpers.py:197-203 | `a.rest` is looked up as `a`, then `rest` |
| Helpers.Retry | src/utils/helpers.py:137-176 | at most `max_retries + 1` calls; every call but the last raised a retryable exception; success returns the last call's value; a failure re-raises the last exception once the attempts are spent or the exception is not retryable; the sleeps are `delay * backoff_factor^k` |
| Processor.Scan | scripts/process_data/processor.py:43-51 | the depth scan stops within the text |
| Processor.ScanCloses | scripts/process_data/processor.py:43-53 | the scan finds `end` exactly when the depth first returns to 0 just before `end` |
| Processor.CandidateCloses | scripts/process_data/processor.py:43-54 | the candidate for a `{` ends just past the first point where the brace depth returns to 0; an unbalanced tail gives none |
| Processor.FindBrace | scripts/process_data/processor.py:38 | the first `{` at or after `i`, or -1 when there is none |
| Processor.Qualifies | scripts/process_data/processor.py:53-60 | a candidate qualifies only as a dictionary with the three required fields |
| Processor.Extract | scripts/process_data/processor.py:17-65 | any dictionary returned has `standardized_address`, `latitude` and `longitude` |
| Processor.ExtractFirst | scripts/process_data/processor.py:35-63 | the result is the qualifying candidate with the least start at or after `i` (nested objects included), or none when no start qualifies |
| Processor.ExtractNoBrace | scripts/process_data/processor.py:36-40 | text without `{` gives none |
| Processor.ExtractValidJson | scripts/process_data/processor.py:17-65 | the nested scanning loops compute the extraction the specification defines |
| Processor.MatchBrace | scripts/process_data/processor.py:43-51 | the inner loop ends with a zero count exactly when the candidate exists, and then it is `text[start:end]` |
| Processor.ProcessItem | scripts/process_data/processor.py:100-157 | it never raises: it gives the original item or a dictionary with the required fields; a failed query gives the item; an extracted object wins over the later fallbacks |
| Processor.ProcessItemFallbacks | scripts/process_data/processor.py:124-153 | with no object extracted and no qualifying `data` field, the whole text is the result when it parses to a dictionary with the required fields, and the item otherwise; a reply text that is not a string gives the qualifying `data` field only when the text is an empty list or dictionary, and the item otherwise |
| Processor.DataFieldSecond | scripts/process_data/processor.py:134-138 | with nothing extracted, a qualifying `data` field is the answer |
| Processor.ProcessBatch | scripts/process_data/processor.py:159-181 | for a positive batch size, one result per item in order, each `process_item` of that item; a zero size raises and a negative one gives `[]` |
| DependencyCheck.NameLength | scripts/check_dependencies.py:22 | the package name is the longest prefix free of `>=<!` and whitespace |
| DependencyCheck.MatchSpec | scripts/check_dependencies.py:22-26 | a match gives a non-empty name (that prefix) and the stripped rest as version; a line starting with a special character does not match |
| DependencyCheck.NameHasNoSpecial | scripts/check_dependencies.py:22-24 | a matched name holds no special character |
| DependencyCheck.SkippedLine | scripts/check_dependencies.py:19-20 | blank and `#` lines leave the dependencies unchanged |
| DependencyCheck.RequirementsLastWins | scripts/check_dependencies.py:18-28 | each package maps to the version on its last line, and names are distinct |
| DependencyCheck.ParseRequirementsTxt | scripts/check_dependencies.py:13-28 | the line loop builds the requirements the specification defines |
| DependencyCheck.EnvSplit | scripts/check_dependencies.py:39-54 | a pip entry never changes the conda dependencies, and a conda entry never changes the pip ones |
| DependencyCheck.ParseEnvironmentYml | scripts/check_dependencies.py:31-56 | the loop splits the environment's entries into conda and pip dependencies |
| DependencyCheck.Verdict | scripts/check_dependencies.py:71-84 | mismatch exactly when pip has the package with another version; missing exactly when neither pip nor conda has it; conda only means ok |
| DependencyCheck.PipBeforeConda | scripts/check_dependencies.py:71-82 | when pip has the package, the conda entry plays no part |
| DependencyCheck.Findings | scripts/check_dependencies.py:70-84 | one verdict per requirement, in order |
| DependencyCheck.Partition | scripts/check_dependencies.py:70-84 | the three buckets together hold every requirement exactly once |
| DependencyCheck.MissingInReqBound | scripts/check_dependencies.py:87-89 | at most one entry per pip package, and none when every pip package is required |
| DependencyCheck.CompareDependencies | scripts/check_dependencies.py:59-91 | the issues are the per-requirement verdicts split by kind, plus the pip packages missing from the requirements in environment order |
| DependencyCheck.CollectMissingInReq | scripts/check_dependencies.py:87-89 | the loop lists exactly the pip packages the requirements lack, in order |
| LlmFactory.ValidateProviderConfig | src/mcp_client/llm_factory.py:73-94 | `claude` fails exactly without an Anthropic key; `openai` fails exactly without an OpenAI key or model; other names pass; failures are `ValidationError` |
| LlmFactory.Create | src/mcp_client/llm_factory.py:26-70 | an unregistered lowercased provider raises `ValidationError` naming the registered ones; otherwise a failed check or constructor is re-raised as `ValidationError("创建…处理器失败: …")`, and success gives the registered class |
| LlmFactory.Factory.constructor | src/mcp_client/llm_factory.py:20-23 | the registry starts as `claude`, then `openai` |
| LlmFactory.Factory.CreateHandler | src/mcp_client/llm_factory.py:26-70 | creation reads the current settings and registry |
| LlmFactory.Factory.RegisterHandler | src/mcp_client/llm_factory.py:97-108 | a class outside the handler hierarchy gives `ValueError` and changes nothing; otherwise it is stored under the lowercased name, overwriting any earlier entry |
| LlmFactory.Factory.GetAvailableProviders | src/mcp_client/llm_factory.py:116-123 | the registry's names in insertion order |
| LlmFactory.InitialProviders | src/mcp_client/llm_factory.py:20-23 | the initial providers are `claude` and `openai` |
| LlmFactory.RegisterOrder | src/mcp_client/llm_factory.py:105-108 | registering an existing name keeps the order, and a new name is added at the end |
| LlmFactory.FailureReport | src/mcp_client/llm_factory.py:163-167 | the report has `success=False`, the error text and the provider |
| LlmFactory.Factory.TestProviderConnection | src/mcp_client/llm_factory.py:126-167 | it never raises; on success it returns the handler's result and restores the provider; on failure it returns the failure report and leaves the tested provider in the settings |
| LlmFactory.FailedTestKeepsSwitch | src/mcp_client/llm_factory.py:141-147 | testing an unregistered provider always fails, so that provider is left in the settings |
| LlmFactory.Factory.TestProviderConnectionRestoring | src/mcp_client/llm_factory.py:139-167 | the same results, with the original provider restored on every path |
| Prompts.PromptFor | src/core/prompt_manager.py:107-121 | a registered name gives its text; any other gives the current default |
| Prompts.RegisterEffect | src/core/prompt_manager.py:123-131 | registering a name changes only that name's lookup, and the fallback too when the name is `default` |
| Prompts.PromptManager.constructor | src/core/prompt_manager.py:98-105 | the registry holds exactly `default` |
| Prompts.PromptManager.GetSystemPrompt | src/core/prompt_manager.py:107-121 | the lookup with fallback to the default |
| Prompts.PromptManager.RegisterPromptTemplate | src/core/prompt_manager.py:123-131 | exactly one entry is added or overwritten, and afterwards the name gives that text |
| Prompts.GetSystemPrompt | src/core/prompt_manager.py:144-154 | the module function answers as the manager does |
| Prompts.FreshManagerDefault | src/core/prompt_manager.py:103-105 | a fresh manager gives the default prompt for every name |
| Config.AmapServerArgsList | src/core/config.py:67-69 | one stripped piece per comma-separated part, none holding a comma |
| Config.ArgsCount | src/core/config.py:67-69 | the argument count is the comma count plus one |
| Config.TwoArgs | src/core/config.py:67-69 | two clean arguments joined by a comma are split back into the two |
| Config.DefaultArgs | src/core/config.py:53-56 | the default arguments are `-y` and `@amap/amap-maps-mcp-server` |
| Config.ValidateLlmProvider | src/core/config.py:71-77 | accepted exactly for `claude` and `openai`, unchanged; otherwise the fixed message |
| Config.ValidateOpenAIApiKey | src/core/config.py:79-85 | rejected exactly when the provider is `openai` and the key is missing or empty |
| Config.ValidateAnthropicApiKey | src/core/config.py:87-93 | rejected exactly when the provider is `claude` and the key is empty |
| Config.ValidateLogLevel | src/core/config.py:95-102 | accepted exactly when the upper-cased value is one of the five levels; the result is that upper-case level |
| Config.LogLevelAnyCase | src/core/config.py:95-102 | any mix of upper and lower case spelling of a level is accepted as that level |
| Errors.NewError | src/core/exceptions.py:9-13 | the message is stored; the error code defaults to the class name when missing or empty; details default to `{}` |
| Errors.ToDict | src/core/exceptions.py:15-21 | exactly the keys `error_code`, `message` and `details`, in that order, mirroring the fields |
| Errors.RaiseDefaults | src/core/exceptions.py:9-21 | a raised service error has its class name as code, empty details, and its message as string value |
| Dicts.Assign | src/mcp_client/llm_factory.py:108 | item assignment sets that key, leaves every other key's value and keeps names distinct |
| Dicts.AssignNames | src/mcp_client/llm_factory.py:108 | item assignment keeps the key order, and adds a new key at the end |
| AddressRoutes.ErrorFor | api/routes/address.py:126-168 | `ValidationError` gives 400 `VALIDATION_ERROR` with its message; `MCPConnectionError` or `ClaudeAPIError` gives 503 `SERVICE_ERROR`; the service's `TimeoutError` gives 408 `TIMEOUT_ERROR`; anything else gives 500 `INTERNAL_ERROR`; each holds both ways, and the request id is attached |
| AddressRoutes.OnlyValidationLeaksMessage | api/routes/address.py:137-168 | two service errors of one class other than validation get the same answer, whatever their messages |
| AddressRoutes.BuiltinTimeoutIsInternal | api/routes/address.py:148-168 | a built-in `TimeoutError` is answered as an internal error |
| AddressRoutes.ParseAddress | api/routes/address.py:99-124 | a raised exception becomes its HTTP error; otherwise the response carries the request id, the handler's success, final answer, records and error, the elapsed time, and `data` is always none |
| AddressRoutes.Item | api/routes/address.py:321-348 | the entry has its index; it succeeded exactly when the query returned a successful result; a raised query gives an empty response and the exception text as error |
| AddressRoutes.CountsCoverBatch | api/routes/address.py:354-355 | every entry is counted once, as a success or as an error |
| AddressRoutes.AllSucceeded | api/routes/address.py:354-355 | the success count is the total exactly when every entry succeeded |
| AddressRoutes.BatchParseAddresses | api/routes/address.py:305-356 | more than ten queries are refused with `BATCH_SIZE_LIMIT` (exactly then); otherwise one entry per query in order, total equal to the number of queries, and the two counts |
| AddressRoutes.BatchCountsAddUp | api/routes/address.py:350-356 | success and error counts add up to the total, and there are no errors exactly when every entry succeeded |
| AddressRoutes.Routes.constructor | api/routes/address.py:31-33 | both globals start as none |
| AddressRoutes.Routes.GetAmapClient | api/routes/address.py:40-55 | the client is created once and kept; a failed first connection is raised and leaves an unconnected client stored; a healthy client is returned untouched; an unhealthy one is disconnected and reconnected, and that reconnection decides the outcome |
| AddressRoutes.Routes.GetClaudeHandler | api/routes/address.py:58-67 | the handler is created once, after the client is obtained; an existing handler is returned and nothing changes; a failure to get the client leaves no handler |

## Left out

- Processes, transport and session: subprocess start and stop, the stdio transport, the MCP session and the async exit stack are external I/O. Only whether each is present is kept, and every answer they give is a parameter.
- Command line of the server process: `src/mcp_client/amap_client.py:182` concatenates a list with the string setting. It belongs to the process start, which is not part of this model.
- Vendor SDK calls: the Anthropic and OpenAI SDK calls, `test_api_connection`, the httpx client and the `os.environ` writes of `_setup_proxies` are foreign calls. Replies are parameters, and only the proxy priority is modelled.
- asyncio: `sleep`, `wait_for` timeouts and the `gather` concurrency of `process_batch` are timing. Delays are returned as real numbers, a timeout is one of a session call's outcomes, and a batch is processed item by item in order.
- Grammars and number formats: the grammars of `json.loads`, `json.dumps` and YAML, the regular-expression engine and floating-point parsing are parameters or written-out scanners. Coordinates are real numbers, not IEEE doubles.
- `generate_request_id` (uuid and time), every logging call, pydantic's settings loading and validation of `AddressResponse`, and `validate_log_file`'s directory creation are I/O or library code. Identifiers and elapsed time are parameters.
- The route endpoints `health_check` and `get_tools` of `api/routes/address.py`, and the startup and shutdown hooks, are thin wrappers around the modelled client operations.
- `DataProcessor.connect` and `disconnect` only create and drop the client and handler. The handler's answers are parameters of `Processor.ProcessItem`.
- DependencyCheck.ParseEnvironmentYml: assumes every entry of a `pip` list is a string, and that the file is a mapping. A non-string entry or an empty file makes the script raise.
- LlmFactory.Create: `str.lower` and `str.upper` are modelled on ASCII letters only.
- LlmFactory.Unsupported: the repr of the provider list inside the message does not escape quotes.
- OpenAIHandler.BuildMessages and OpenAIHandler.Handler.ProcessQuery take the default system prompt as a parameter rather than reading the prompt registry.
- BaseHandler.MakeSerializable is not idempotent, so no idempotence is claimed. `BaseHandler.MakeSerializableNotIdempotent` shows an input where it differs.
- Helpers.ValidateAddress checks the CJK range only. Every address keyword is itself in that range (`Helpers.KeywordImpliesCjk`), so this is the same test.

## Findings

| source | as written | input that shows it | evidently intended | confidence | as-written member | corrected member |
|---|---|---|---|---|---|---|
| src/mcp_client/openai_handler.py:235 | the loop bound is read from `settings.tool_max_iterations`, which the settings class in `src/core/config.py` never declares, so `_handle_response` raises `AttributeError` before the first round and every query returns `success=False` | any OpenAI response, with the settings as declared | a configured bound, with the loop running at most that many rounds | high, not executed | OpenAIHandler.MissingBoundAlwaysFails | OpenAIHandler.DriveCounts |
| src/mcp_client/llm_factory.py:139-167 | `llm_provider` is switched to the tested provider and restored only after a successful test; a failed test leaves the switch in the shared settings | testing a provider that is not registered, e.g. `"gemini"` | the switch is temporary ("仅用于测试"), so it is restored on every path | high, not executed | LlmFactory.Factory.TestProviderConnection | LlmFactory.Factory.TestProviderConnectionRestoring |
