/** `LLMHandlerFactory` of `src/mcp_client/llm_factory.py`: the class-level
    registry from provider name to handler class, handler creation with the
    per-provider configuration checks, and the connection test that switches
    the shared settings' provider. */
module LlmFactory {
  import opened Options
  import opened JsonValue
  import opened Text
  import opened Errors
  import opened Dicts

  /** A handler class: its `__name__` and whether it subclasses
      `BaseLLMHandler`. */
  datatype HandlerClass = HandlerClass(name: string, derivesFromBase: bool)

  /** `ClaudeHandler` is declared without a base class; `OpenAIHandler`
      derives from `BaseLLMHandler`. */
  const ClaudeClass := HandlerClass("ClaudeHandler", false)
  const OpenAIClass := HandlerClass("OpenAIHandler", true)

  /** A handler instance, known by its class. */
  datatype Handler = Handler(cls: HandlerClass)

  /** The settings fields the factory reads; only `llm_provider` is ever
      assigned. */
  class Settings {
    var llmProvider: string
    const anthropicApiKey: string
    const openaiApiKey: Option<string>
    const openaiModel: string

    constructor(llmProvider: string, anthropicApiKey: string, openaiApiKey: Option<string>, openaiModel: string)
      ensures this.llmProvider == llmProvider && this.anthropicApiKey == anthropicApiKey
      ensures this.openaiApiKey == openaiApiKey && this.openaiModel == openaiModel
    {
      this.llmProvider := llmProvider;
      this.anthropicApiKey := anthropicApiKey;
      this.openaiApiKey := openaiApiKey;
      this.openaiModel := openaiModel;
    }
  }

  /** `_validate_provider_config(provider, settings)`: `claude` needs an
      Anthropic key, `openai` an OpenAI key and a model; any other provider
      passes. */
  function ValidateProviderConfig(provider: string, anthropicApiKey: string, openaiApiKey: Option<string>,
                                  openaiModel: string): (r: Result<(), Exc>)
    ensures r.Err? ==> r.error.App? && r.error.err.cls == Validation
    ensures provider == "claude" ==> (r.Err? <==> anthropicApiKey == "")
    ensures provider == "openai" ==> (r.Err? <==> openaiApiKey.None? || openaiApiKey.value == "" || openaiModel == "")
    ensures provider != "claude" && provider != "openai" ==> r.Ok?
  {
    if provider == "claude" then
      if anthropicApiKey == "" then Err(Raise(Validation, "使用Claude时，ANTHROPIC_API_KEY是必需的")) else Ok(())
    else if provider == "openai" then
      if openaiApiKey.None? || openaiApiKey.value == "" then Err(Raise(Validation, "使用OpenAI时，OPENAI_API_KEY是必需的"))
      else if openaiModel == "" then Err(Raise(Validation, "使用OpenAI时，OPENAI_MODEL是必需的"))
      else Ok(())
    else Ok(())
  }

  /** `repr` of a list of provider names. */
  function NamesRepr(names: seq<string>): string
  {
    "[" + Join(seq(|names|, i requires 0 <= i < |names| => "'" + names[i] + "'"), ", ") + "]"
  }

  /** The `ValidationError` for a provider that is not registered. */
  function Unsupported(provider: string, names: seq<string>): Exc
  {
    Raise(Validation, "不支持的LLM提供商: " + provider + "。支持的提供商: " + NamesRepr(names))
  }

  /** The `ValidationError` that wraps any failure while checking the
      configuration or constructing the handler. */
  function CreationFailed(provider: string, e: Exc): Exc
  {
    Raise(Validation, "创建" + Upper(provider) + "处理器失败: " + StrOf(e))
  }

  /** What creating a handler does in the given registry and settings, with
      `construct` the outcome of calling the handler class. */
  function Create(handlers: Dict<HandlerClass>, llmProvider: string, anthropicApiKey: string,
                  openaiApiKey: Option<string>, openaiModel: string,
                  construct: HandlerClass -> Result<(), Exc>): (r: Result<Handler, Exc>)
    ensures Get(handlers, Lower(llmProvider)).None? ==> r == Err(Unsupported(Lower(llmProvider), Names(handlers)))
    ensures r.Ok? ==> Get(handlers, Lower(llmProvider)) == Some(r.value.cls)
    ensures r.Err? ==> r.error.App? && r.error.err.cls == Validation
    ensures Get(handlers, Lower(llmProvider)).Some? ==>
      var check := ValidateProviderConfig(Lower(llmProvider), anthropicApiKey, openaiApiKey, openaiModel);
      var cls := Get(handlers, Lower(llmProvider)).value;
      && (check.Err? ==> r == Err(CreationFailed(Lower(llmProvider), check.error)))
      && (check.Ok? && construct(cls).Err? ==> r == Err(CreationFailed(Lower(llmProvider), construct(cls).error)))
      && (check.Ok? && construct(cls).Ok? ==> r == Ok(Handler(cls)))
  {
    var provider := Lower(llmProvider);
    match Get(handlers, provider)
    case None => Err(Unsupported(provider, Names(handlers)))
    case Some(cls) =>
      match ValidateProviderConfig(provider, anthropicApiKey, openaiApiKey, openaiModel)
      case Err(e) => Err(CreationFailed(provider, e))
      case Ok(_) =>
        match construct(cls)
        case Err(e) => Err(CreationFailed(provider, e))
        case Ok(_) => Ok(Handler(cls))
  }

  const NotBaseSubclass: Exc := Builtin("ValueError", "处理器类必须继承自BaseLLMHandler")

  /** The registry state of `LLMHandlerFactory`. */
  class Factory {
    var handlers: Dict<HandlerClass>

    predicate Valid()
      reads this
    {
      UniqueNames(handlers)
    }

    /** The class body: `claude` and `openai`. */
    constructor()
      ensures Valid()
      ensures handlers == [("claude", ClaudeClass), ("openai", OpenAIClass)]
    {
      handlers := [("claude", ClaudeClass), ("openai", OpenAIClass)];
    }

    /** `create_handler(amap_client)` with the settings' current provider. */
    function CreateHandler(settings: Settings, construct: HandlerClass -> Result<(), Exc>): (r: Result<Handler, Exc>)
      reads this, settings
      ensures r == Create(handlers, settings.llmProvider, settings.anthropicApiKey, settings.openaiApiKey,
                          settings.openaiModel, construct)
    {
      Create(handlers, settings.llmProvider, settings.anthropicApiKey, settings.openaiApiKey, settings.openaiModel, construct)
    }

    /** `register_handler(provider, handler_class)` */
    method RegisterHandler(provider: string, cls: HandlerClass) returns (r: Result<(), Exc>)
      modifies this
      requires Valid()
      ensures Valid()
      ensures !cls.derivesFromBase ==> r == Err(NotBaseSubclass) && handlers == old(handlers)
      ensures cls.derivesFromBase ==> r == Ok(()) && handlers == Assign(old(handlers), Lower(provider), cls)
    {
      if !cls.derivesFromBase {
        return Err(NotBaseSubclass);
      }
      handlers := Assign(handlers, Lower(provider), cls);
      return Ok(());
    }

    /** `get_available_providers()` */
    function GetAvailableProviders(): (names: seq<string>)
      reads this
      ensures names == Names(handlers)
    {
      Names(handlers)
    }

    /** `test_provider_connection(provider, amap_client)`: `apiResult` is
        what the handler's `test_api_connection` returns or raises. The
        provider is switched in the shared settings and switched back only
        when the test returns. */
    method TestProviderConnection(provider: string, settings: Settings, construct: HandlerClass -> Result<(), Exc>,
                                  apiResult: Result<Entries, Exc>)
      returns (result: Entries)
      modifies settings
      ensures var created := Create(handlers, provider, settings.anthropicApiKey, settings.openaiApiKey,
                                    settings.openaiModel, construct);
        && (created.Ok? && apiResult.Ok? ==>
              result == apiResult.value && settings.llmProvider == old(settings.llmProvider))
        && (created.Err? ==> result == FailureReport(created.error, provider) && settings.llmProvider == provider)
        && (created.Ok? && apiResult.Err? ==>
              result == FailureReport(apiResult.error, provider) && settings.llmProvider == provider)
    {
      var originalProvider := settings.llmProvider;
      settings.llmProvider := provider;
      var handler := CreateHandler(settings, construct);
      if handler.Err? {
        return FailureReport(handler.error, provider);
      }
      if apiResult.Err? {
        return FailureReport(apiResult.error, provider);
      }
      settings.llmProvider := originalProvider;
      return apiResult.value;
    }

    /** The connection test with the switch undone on every path. */
    method TestProviderConnectionRestoring(provider: string, settings: Settings,
                                           construct: HandlerClass -> Result<(), Exc>,
                                           apiResult: Result<Entries, Exc>)
      returns (result: Entries)
      modifies settings
      ensures settings.llmProvider == old(settings.llmProvider)
      ensures var created := Create(handlers, provider, settings.anthropicApiKey, settings.openaiApiKey,
                                    settings.openaiModel, construct);
        && (created.Ok? && apiResult.Ok? ==> result == apiResult.value)
        && (created.Err? ==> result == FailureReport(created.error, provider))
        && (created.Ok? && apiResult.Err? ==> result == FailureReport(apiResult.error, provider))
    {
      var originalProvider := settings.llmProvider;
      settings.llmProvider := provider;
      var handler := CreateHandler(settings, construct);
      if handler.Err? {
        result := FailureReport(handler.error, provider);
      } else if apiResult.Err? {
        result := FailureReport(apiResult.error, provider);
      } else {
        result := apiResult.value;
      }
      settings.llmProvider := originalProvider;
    }
  }

  /** The dictionary returned when the connection test fails. */
  function FailureReport(e: Exc, provider: string): (d: Entries)
    ensures Lookup(d, "success") == Some(Bool(false))
    ensures Lookup(d, "error") == Some(Str(StrOf(e)))
    ensures Lookup(d, "provider") == Some(Str(provider))
  {
    [("success", Bool(false)), ("error", Str(StrOf(e))), ("provider", Str(provider))]
  }

  /** A fresh registry offers `claude` then `openai`. */
  lemma InitialProviders()
    ensures Names([("claude", ClaudeClass), ("openai", OpenAIClass)]) == ["claude", "openai"]
  {
  }

  /** Registering a subclass under an existing name replaces it in place;
      a new name is offered last. */
  lemma RegisterOrder(handlers: Dict<HandlerClass>, provider: string, cls: HandlerClass)
    ensures Names(Assign(handlers, Lower(provider), cls)) ==
      if Get(handlers, Lower(provider)).Some? then Names(handlers) else Names(handlers) + [Lower(provider)]
  {
    AssignNames(handlers, Lower(provider), cls);
  }

  /** After a failed test of an unregistered provider the shared settings
      keep that name, so every later `create_handler` fails too. */
  lemma FailedTestKeepsSwitch(handlers: Dict<HandlerClass>, provider: string, anthropicApiKey: string,
                              openaiApiKey: Option<string>, openaiModel: string,
                              construct: HandlerClass -> Result<(), Exc>)
    requires Get(handlers, Lower(provider)).None?
    ensures Create(handlers, provider, anthropicApiKey, openaiApiKey, openaiModel, construct) ==
      Err(Unsupported(Lower(provider), Names(handlers)))
  {
  }
}
