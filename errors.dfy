/** The service's exception hierarchy: every class is a subclass of
    `AddressParserBaseException` that adds nothing, so one record with the
    concrete class as a tag models all of them. */
module Errors {
  import opened Options
  import opened JsonValue

  datatype ErrorClass =
    | AddressParserBase
    | MCPConnection
    | AmapAPI
    | ClaudeAPI
    | Configuration
    | ServerProcess
    | ToolCall
    | Validation
    | Timeout

  /** `self.__class__.__name__` of each class. */
  function ClassName(c: ErrorClass): string
  {
    match c
    case AddressParserBase => "AddressParserBaseException"
    case MCPConnection => "MCPConnectionError"
    case AmapAPI => "AmapAPIError"
    case ClaudeAPI => "ClaudeAPIError"
    case Configuration => "ConfigurationError"
    case ServerProcess => "ServerProcessError"
    case ToolCall => "ToolCallError"
    case Validation => "ValidationError"
    case Timeout => "TimeoutError"
  }

  /** An instance of one of the service's exception classes. */
  datatype AppError = AppError(cls: ErrorClass, message: string, errorCode: string, details: Entries)

  /** Any exception the core can see: one of the service's own, or a built-in
      one (`ValueError`, `KeyError`, ...) named by its class. */
  datatype Exc = App(err: AppError) | Builtin(name: string, text: string)

  /** `AddressParserBaseException.__init__(message, error_code, details)`:
      a missing or empty code becomes the class name, missing or empty
      details become `{}`. */
  function NewError(cls: ErrorClass, message: string, errorCode: Option<string>, details: Option<Entries>): (e: AppError)
    ensures e.cls == cls && e.message == message
    ensures e.errorCode == if errorCode.Some? && errorCode.value != "" then errorCode.value else ClassName(cls)
    ensures e.details == if details.Some? then details.value else []
  {
    AppError(cls, message,
      if errorCode.Some? && errorCode.value != "" then errorCode.value else ClassName(cls),
      if details.Some? && details.value != [] then details.value else [])
  }

  /** `raise Cls(message)`, the only form the core uses. */
  function Raise(cls: ErrorClass, message: string): Exc
  {
    App(NewError(cls, message, None, None))
  }

  /** `str(e)`: for the service's classes the message passed to `Exception.__init__`. */
  function StrOf(e: Exc): string
  {
    match e
    case App(err) => err.message
    case Builtin(_, text) => text
  }

  /** `to_dict()` */
  function ToDict(e: AppError): (d: Entries)
    ensures Keys(d) == ["error_code", "message", "details"]
    ensures Lookup(d, "error_code") == Some(Str(e.errorCode))
    ensures Lookup(d, "message") == Some(Str(e.message))
    ensures Lookup(d, "details") == Some(Dict(e.details))
  {
    [("error_code", Str(e.errorCode)), ("message", Str(e.message)), ("details", Dict(e.details))]
  }

  /** A raised exception carries the class name as code, no details, and its
      message as its string value; `to_dict` reports exactly those. */
  lemma RaiseDefaults(cls: ErrorClass, message: string)
    ensures Raise(cls, message).err.errorCode == ClassName(cls)
    ensures Raise(cls, message).err.details == []
    ensures StrOf(Raise(cls, message)) == message
    ensures Lookup(ToDict(Raise(cls, message).err), "error_code") == Some(Str(ClassName(cls)))
  {
  }
}
