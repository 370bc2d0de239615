/** `AmapMCPClient` of `src/mcp_client/amap_client.py`: the connection state
    of the map-service tool provider. The server process, the stdio transport
    and the protocol session belong to external libraries; the model keeps
    only whether each is present, and every reply they give is a parameter. */
module AmapClient {
  import opened Options
  import opened JsonValue
  import opened Errors
  import Helpers

  /** One catalog entry: the `{"name", "description", "input_schema"}`
      dictionary built from a tool the session lists. */
  datatype ToolInfo = ToolInfo(name: string, description: Value, inputSchema: Value)

  /** How far `connect` gets: the step that raised, with the text of the
      exception it raised, or all four steps through with the reply of
      `list_tools` (`None` when that call raised). */
  datatype ConnectRun =
    | StartFailed(reason: string, spawned: bool)
    | TransportFailed(reason: string)
    | SessionFailed(reason: string)
    | InitializeFailed(reason: string)
    | Ready(listed: Option<seq<ToolInfo>>)

  /** `str(e)` of the exception a failed step raises inside `connect`. */
  function StepMessage(run: ConnectRun): string
    requires !run.Ready?
  {
    match run
    case StartFailed(reason, _) => "启动服务器失败: " + reason
    case TransportFailed(reason) => "建立MCP连接失败: " + reason
    case SessionFailed(reason) => "建立MCP连接失败: " + reason
    case InitializeFailed(reason) => "初始化MCP会话失败: " + reason
  }

  /** What one `session.call_tool` does: returns a result whose `content` is
      given, times out, or raises with the given text. */
  datatype SessionReply = Content(content: Value) | TimedOut | Failed(reason: string)

  const NotConnected: Exc := Raise(MCPConnection, "MCP客户端未连接")

  /** The text of the `ToolCallError` raised for a tool missing from the
      catalog, before `call_tool` wraps it. */
  function Unavailable(name: string): string
  {
    "工具 " + name + " 不可用"
  }

  /** `any(tool["name"] == tool_name for tool in tools)` */
  predicate Listed(tools: seq<ToolInfo>, name: string)
  {
    exists i | 0 <= i < |tools| :: tools[i].name == name
  }

  /** `_is_tool_available` on a catalog: false for `None` and `[]`, name
      membership otherwise. */
  function ToolAvailable(tools: Option<seq<ToolInfo>>, name: string): (ok: bool)
    ensures ok ==> tools.Some? && tools.value != []
    ensures ok <==> tools.Some? && Listed(tools.value, name)
  {
    if tools.None? || tools.value == [] then false
    else Listed(tools.value, name)
  }

  /** One run of the body of `call_tool` on a client in the given state. */
  function AttemptCall(connected: bool, hasSession: bool, tools: Option<seq<ToolInfo>>,
                       name: string, reply: SessionReply): (a: Helpers.Attempt<Value>)
    ensures !connected || !hasSession ==> a == Helpers.Raised(NotConnected)
    ensures connected && hasSession && !ToolAvailable(tools, name) ==>
      a == Helpers.Raised(Raise(ToolCall, "工具调用失败: " + Unavailable(name)))
    ensures a.Returned? <==> connected && hasSession && ToolAvailable(tools, name) && reply.Content?
    ensures a.Returned? ==> a.value == reply.content
  {
    if !connected || !hasSession then Helpers.Raised(NotConnected)
    else if !ToolAvailable(tools, name) then
      // raised inside the `try` and wrapped by its `except Exception`
      var inner := Raise(ToolCall, Unavailable(name));
      Helpers.Raised(Raise(ToolCall, "工具调用失败: " + StrOf(inner)))
    else
      match reply
      case Content(v) => Helpers.Returned(v)
      case TimedOut => Helpers.Raised(Raise(Timeout, "工具调用超时: " + name))
      case Failed(reason) => Helpers.Raised(Raise(ToolCall, "工具调用失败: " + reason))
  }

  /** Whether one run of `call_tool`'s body reaches the session. */
  predicate ReachesSession(connected: bool, hasSession: bool, tools: Option<seq<ToolInfo>>, name: string)
  {
    connected && hasSession && ToolAvailable(tools, name)
  }

  class Client {
    var isConnected: bool
    var hasSession: bool
    var hasStdio: bool
    var hasWrite: bool
    var hasServerProcess: bool
    var availableTools: Option<seq<ToolInfo>>

    /** A connected client has its session; a session never exists without
        its transport. */
    predicate Valid()
      reads this
    {
      (isConnected ==> hasSession) &&
      (hasSession ==> hasStdio && hasWrite)
    }

    /** `__init__` */
    constructor()
      ensures Valid()
      ensures !isConnected && !hasSession && !hasStdio && !hasWrite && !hasServerProcess
      ensures availableTools == None
    {
      isConnected := false;
      hasSession := false;
      hasStdio := false;
      hasWrite := false;
      hasServerProcess := false;
      availableTools := None;
    }

    /** `disconnect()`: never raises; `stopped` says whether stopping the
        server process went through (an exception there leaves the process
        recorded). */
    method Disconnect(stopped: bool)
      modifies this
      ensures Valid()
      ensures !isConnected && !hasSession && !hasStdio && !hasWrite
      ensures availableTools == None
      ensures hasServerProcess == (old(hasServerProcess) && !stopped)
    {
      if hasServerProcess && stopped {
        hasServerProcess := false;
      }
      hasSession := false;
      hasStdio := false;
      hasWrite := false;
      isConnected := false;
      availableTools := None;
    }

    /** `_load_available_tools()`: the listed tools in order, or `[]` when
        listing raises (which it does without a session). */
    method LoadAvailableTools(listed: Option<seq<ToolInfo>>)
      modifies this
      requires Valid()
      ensures Valid()
      ensures availableTools == Some(if hasSession && listed.Some? then listed.value else [])
      ensures isConnected == old(isConnected) && hasSession == old(hasSession)
      ensures hasStdio == old(hasStdio) && hasWrite == old(hasWrite)
      ensures hasServerProcess == old(hasServerProcess)
    {
      if hasSession && listed.Some? {
        availableTools := Some(listed.value);
      } else {
        availableTools := Some([]);
      }
    }

    /** `connect()`: connected only when all four steps succeed; otherwise
        disconnected again and `MCPConnectionError("连接失败: ...")`. */
    method Connect(run: ConnectRun, stopped: bool) returns (r: Result<(), Exc>)
      modifies this
      requires Valid()
      ensures Valid()
      ensures r.Ok? <==> run.Ready?
      ensures run.Ready? ==>
        && isConnected && hasSession && hasServerProcess
        && availableTools == Some(if run.listed.Some? then run.listed.value else [])
      ensures !run.Ready? ==>
        && r == Err(Raise(MCPConnection, "连接失败: " + StepMessage(run)))
        && !isConnected && !hasSession && !hasStdio && !hasWrite && availableTools == None
    {
      // _start_amap_server
      if run.StartFailed? {
        if run.spawned {
          hasServerProcess := true;
        }
        Disconnect(stopped);
        return Err(Raise(MCPConnection, "连接失败: " + StepMessage(run)));
      }
      hasServerProcess := true;
      // _establish_mcp_connection
      if run.TransportFailed? {
        Disconnect(stopped);
        return Err(Raise(MCPConnection, "连接失败: " + StepMessage(run)));
      }
      hasStdio := true;
      hasWrite := true;
      if run.SessionFailed? {
        Disconnect(stopped);
        return Err(Raise(MCPConnection, "连接失败: " + StepMessage(run)));
      }
      hasSession := true;
      // _initialize_session
      if run.InitializeFailed? {
        Disconnect(stopped);
        return Err(Raise(MCPConnection, "连接失败: " + StepMessage(run)));
      }
      // _load_available_tools
      LoadAvailableTools(run.listed);
      isConnected := true;
      return Ok(());
    }

    /** `_is_tool_available(tool_name)` */
    function IsToolAvailable(name: string): (ok: bool)
      reads this
      ensures ok <==> availableTools.Some? && Listed(availableTools.value, name)
    {
      ToolAvailable(availableTools, name)
    }

    /** `call_tool(tool_name, arguments)` under `retry_async(max_retries=3,
        delay=1.0)`, which retries on every exception: `replies(k)` is what
        the k-th session call would do; `sessionCalls` lists the calls that
        reached the session, and `sleeps` the delays slept. */
    method CallTool(name: string, arguments: Value, replies: nat -> SessionReply)
      returns (r: Result<Value, Exc>, sessionCalls: seq<(string, Value)>, sleeps: seq<real>)
      ensures |sessionCalls| <= 4 && |sleeps| <= 3
      ensures forall i :: 0 <= i < |sessionCalls| ==> sessionCalls[i] == (name, arguments)
      ensures !isConnected || !hasSession ==> r == Err(NotConnected) && sessionCalls == []
      ensures isConnected && hasSession && !IsToolAvailable(name) ==>
        r == Err(Raise(ToolCall, "工具调用失败: " + Unavailable(name))) && sessionCalls == []
      ensures r.Ok? ==> |sessionCalls| >= 1 && replies(|sessionCalls| - 1) == Content(r.value)
      ensures r.Err? && sessionCalls != [] ==> |sessionCalls| == 4
      ensures forall k :: 0 <= k < |sessionCalls| - 1 ==> !replies(k).Content?
      ensures isConnected && hasSession && IsToolAvailable(name) && replies(0).Content? ==>
        r == Ok(replies(0).content) && |sessionCalls| == 1
      ensures forall k :: 0 <= k < |sleeps| ==> sleeps[k] == Helpers.Backoff(1.0, 2.0, k)
    {
      var connected, session, tools := isConnected, hasSession, availableTools;
      var attempt := (k: nat) => AttemptCall(connected, session, tools, name, replies(k));
      var calls;
      r, calls, sleeps := Helpers.Retry(3, 1.0, 2.0, (e: Exc) => true, attempt);
      if ReachesSession(connected, session, tools, name) {
        sessionCalls := seq(calls, _ => (name, arguments));
        forall k | 0 <= k < calls - 1 ensures !replies(k).Content? {
          assert attempt(k) == AttemptCall(connected, session, tools, name, replies(k));
        }
        if replies(0).Content? {
          assert attempt(0) == AttemptCall(connected, session, tools, name, replies(0));
        }
      } else {
        sessionCalls := [];
        assert attempt(calls - 1) == AttemptCall(connected, session, tools, name, replies(calls - 1));
      }
    }

    /** `list_available_tools()`: loads the catalog on first use. */
    method ListAvailableTools(listed: Option<seq<ToolInfo>>) returns (r: Result<seq<ToolInfo>, Exc>)
      modifies this
      requires Valid()
      ensures Valid()
      ensures !old(isConnected) ==> r == Err(NotConnected) && availableTools == old(availableTools)
      ensures old(isConnected) && old(availableTools).Some? ==>
        r == Ok(old(availableTools).value) && availableTools == old(availableTools)
      ensures old(isConnected) && old(availableTools).None? ==>
        r == Ok(if listed.Some? then listed.value else []) && availableTools == Some(r.value)
      ensures isConnected == old(isConnected) && hasSession == old(hasSession)
      ensures hasServerProcess == old(hasServerProcess)
    {
      if !isConnected {
        return Err(NotConnected);
      }
      if availableTools.None? {
        LoadAvailableTools(listed);
      }
      return Ok(availableTools.value);
    }

    /** `health_check()`: `probeOk` says whether `session.list_tools()`
        returns; the state is never changed. */
    method HealthCheck(probeOk: bool) returns (healthy: bool)
      ensures healthy <==> isConnected && hasSession && probeOk
    {
      if !isConnected || !hasSession {
        return false;
      }
      return probeOk;
    }
  }

  /** A call that is retried four times without success has slept 1, 2 and 4
      seconds in between. */
  lemma RetrySleeps()
    ensures Helpers.Backoff(1.0, 2.0, 0) == 1.0 && Helpers.Backoff(1.0, 2.0, 1) == 2.0 && Helpers.Backoff(1.0, 2.0, 2) == 4.0
  {
  }
}
