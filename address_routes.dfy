/** The address routes of `api/routes/address.py`: the shared client and
    handler that are created on first use, the mapping from the exception a
    query raises to the HTTP error the route answers with, and the batch
    endpoint. */
module AddressRoutes {
  import opened Options
  import opened JsonValue
  import opened Errors
  import opened AmapClient
  import opened BaseHandler
  import ClaudeHandler

  /** An `HTTPException`: its status code and the `detail` dictionary's
      `error_code`, `error_message` and `request_id` (absent for the batch
      size limit). */
  datatype HttpError = HttpError(status: int, errorCode: string, message: string, requestId: Option<string>)

  const ServiceUnavailable := "服务暂时不可用，请稍后重试"
  const RequestTimedOut := "请求处理超时"
  const InternalError := "内部服务器错误"

  /** The `except` clauses of `parse_address`, tried in order. `TimeoutError`
      there is the service's own class, which shadows the built-in one, so a
      built-in exception of any name lands in the last clause. */
  function ErrorFor(e: Exc, requestId: string): (h: HttpError)
    ensures h.requestId == Some(requestId)
    ensures h.status == 400 <==> e.App? && e.err.cls == Validation
    ensures h.status == 503 <==> e.App? && (e.err.cls == MCPConnection || e.err.cls == ClaudeAPI)
    ensures h.status == 408 <==> e.App? && e.err.cls == Timeout
    ensures h.status in {400, 503, 408, 500}
    ensures h.status == 400 ==> h.errorCode == "VALIDATION_ERROR" && h.message == StrOf(e)
    ensures h.status == 503 ==> h.errorCode == "SERVICE_ERROR" && h.message == ServiceUnavailable
    ensures h.status == 408 ==> h.errorCode == "TIMEOUT_ERROR" && h.message == RequestTimedOut
    ensures h.status == 500 ==> h.errorCode == "INTERNAL_ERROR" && h.message == InternalError
  {
    if e.App? && e.err.cls == Validation then HttpError(400, "VALIDATION_ERROR", StrOf(e), Some(requestId))
    else if e.App? && (e.err.cls == MCPConnection || e.err.cls == ClaudeAPI) then
      HttpError(503, "SERVICE_ERROR", ServiceUnavailable, Some(requestId))
    else if e.App? && e.err.cls == Timeout then HttpError(408, "TIMEOUT_ERROR", RequestTimedOut, Some(requestId))
    else HttpError(500, "INTERNAL_ERROR", InternalError, Some(requestId))
  }

  /** Only a validation error shows its own message to the caller; every
      other failure answers with a fixed text. */
  lemma OnlyValidationLeaksMessage(e: Exc, f: Exc, requestId: string)
    requires !(e.App? && e.err.cls == Validation) && !(f.App? && f.err.cls == Validation)
    requires e.App? && f.App? && e.err.cls == f.err.cls
    ensures ErrorFor(e, requestId) == ErrorFor(f, requestId)
  {
  }

  /** A built-in `TimeoutError` (from `asyncio`, say) is an internal error,
      not a timeout. */
  lemma BuiltinTimeoutIsInternal(text: string, requestId: string)
    ensures ErrorFor(Builtin("TimeoutError", text), requestId).status == 500
  {
  }

  /** The `AddressResponse` of a successful call: `data` is read from a key
      that no handler's result has, so it is always `None`. */
  datatype AddressResponse = AddressResponse(success: bool, requestId: string, data: Value, response: string,
                                             toolCalls: seq<ToolCallRecord>, error: Option<string>,
                                             processingTime: real)

  /** `parse_address` after the handler has answered: `outcome` is what
      `process_query` returns or raises, `elapsed` the measured time. */
  function ParseAddress(requestId: string, outcome: Result<QueryResult, Exc>, elapsed: real)
    : (r: Result<AddressResponse, HttpError>)
    ensures outcome.Err? ==> r == Err(ErrorFor(outcome.error, requestId))
    ensures outcome.Ok? ==> r.Ok?
    ensures r.Ok? ==>
      && r.value.requestId == requestId && r.value.data == Null && r.value.processingTime == elapsed
      && r.value.success == outcome.value.success && r.value.response == outcome.value.finalAnswer
      && r.value.toolCalls == outcome.value.toolCalls && r.value.error == outcome.value.error
  {
    match outcome
    case Err(e) => Err(ErrorFor(e, requestId))
    case Ok(q) => Ok(AddressResponse(q.success, requestId, Null, q.finalAnswer, q.toolCalls, q.error, elapsed))
  }

  // ---------------------------------------------------------------------------
  // batch_parse_addresses

  const MaxBatch := 10
  const BatchSizeLimit := HttpError(400, "BATCH_SIZE_LIMIT", "批量请求数量不能超过10个", None)

  /** One entry of the batch's `results`. */
  datatype BatchItem = BatchItem(index: nat, success: bool, data: Value, response: string, error: Option<string>)

  /** The entry for the query at `i`: the handler's answer, or the raised
      exception's string value as a failure. */
  function Item(i: nat, outcome: Result<QueryResult, Exc>): (b: BatchItem)
    ensures b.index == i && b.data == Null
    ensures b.success <==> outcome.Ok? && outcome.value.success
    ensures outcome.Ok? ==> b.response == outcome.value.finalAnswer && b.error == outcome.value.error
    ensures outcome.Err? ==> b.response == "" && b.error == Some(StrOf(outcome.error))
  {
    match outcome
    case Ok(q) => BatchItem(i, q.success, Null, q.finalAnswer, q.error)
    case Err(e) => BatchItem(i, false, Null, "", Some(StrOf(e)))
  }

  /** The returned dictionary. */
  datatype BatchReport = BatchReport(batchId: string, total: nat, results: seq<BatchItem>,
                                     successCount: nat, errorCount: nat)

  /** `sum(1 for r in results if r["success"])` */
  function Succeeded(items: seq<BatchItem>): nat
  {
    if items == [] then 0
    else Succeeded(items[..|items| - 1]) + (if items[|items| - 1].success then 1 else 0)
  }

  /** `sum(1 for r in results if not r["success"])` */
  function Failed(items: seq<BatchItem>): nat
  {
    if items == [] then 0
    else Failed(items[..|items| - 1]) + (if items[|items| - 1].success then 0 else 1)
  }

  /** Every entry is counted once, as a success or as an error. */
  lemma {:induction false} CountsCoverBatch(items: seq<BatchItem>)
    ensures Succeeded(items) + Failed(items) == |items|
    decreases |items|
  {
    if items != [] {
      CountsCoverBatch(items[..|items| - 1]);
    }
  }

  /** The success count is the whole batch exactly when every entry
      succeeded. */
  lemma {:induction false} AllSucceeded(items: seq<BatchItem>)
    ensures Succeeded(items) == |items| <==> forall k :: 0 <= k < |items| ==> items[k].success
    decreases |items|
  {
    if items != [] {
      var init := items[..|items| - 1];
      AllSucceeded(init);
      CountsCoverBatch(init);
      if Succeeded(items) == |items| {
        forall k | 0 <= k < |items| ensures items[k].success {
          if k < |items| - 1 {
            assert items[k] == init[k];
          }
        }
      } else {
        assert !(forall k :: 0 <= k < |init| ==> init[k].success) || !items[|items| - 1].success;
      }
    }
  }

  /** `batch_parse_addresses(queries)`: `outcomes[i]` is what
      `process_query` returns or raises for the i-th query, `batchId` the
      generated identifier. More than ten queries are refused before any is
      processed. */
  method BatchParseAddresses(outcomes: seq<Result<QueryResult, Exc>>, batchId: string)
    returns (r: Result<BatchReport, HttpError>)
    ensures |outcomes| > MaxBatch <==> r == Err(BatchSizeLimit)
    ensures r.Ok? ==>
      && r.value.batchId == batchId && r.value.total == |outcomes| == |r.value.results|
      && (forall k :: 0 <= k < |outcomes| ==> r.value.results[k] == Item(k, outcomes[k]))
      && r.value.successCount == Succeeded(r.value.results)
      && r.value.errorCount == Failed(r.value.results)
  {
    if |outcomes| > MaxBatch {
      return Err(BatchSizeLimit);
    }
    var results: seq<BatchItem> := [];
    for i := 0 to |outcomes|
      invariant |results| == i
      invariant forall k :: 0 <= k < i ==> results[k] == Item(k, outcomes[k])
    {
      match outcomes[i] {
        case Ok(q) =>
          results := results + [BatchItem(i, q.success, Null, q.finalAnswer, q.error)];
        case Err(e) =>
          results := results + [BatchItem(i, false, Null, "", Some(StrOf(e)))];
      }
    }
    var successCount, errorCount := 0, 0;
    for j := 0 to |results|
      invariant successCount == Succeeded(results[..j])
      invariant errorCount == Failed(results[..j])
    {
      assert results[..j + 1][..j] == results[..j];
      if results[j].success {
        successCount := successCount + 1;
      } else {
        errorCount := errorCount + 1;
      }
    }
    assert results[..|results|] == results;
    return Ok(BatchReport(batchId, |outcomes|, results, successCount, errorCount));
  }

  /** The batch counts add up to the number of queries, and every query
      succeeded exactly when the success count is the total. */
  lemma BatchCountsAddUp(report: BatchReport)
    requires report.total == |report.results|
    requires report.successCount == Succeeded(report.results) && report.errorCount == Failed(report.results)
    ensures report.successCount + report.errorCount == report.total
    ensures report.errorCount == 0 <==> forall k :: 0 <= k < report.total ==> report.results[k].success
  {
    CountsCoverBatch(report.results);
    AllSucceeded(report.results);
  }

  // ---------------------------------------------------------------------------
  // get_amap_client / get_claude_handler

  /** The module globals `_amap_client` and `_claude_handler`. */
  class Routes {
    var amapClient: Client?
    var claudeHandler: ClaudeHandler.Handler?

    predicate Valid()
      reads this, amapClient
    {
      amapClient != null ==> amapClient.Valid()
    }

    constructor()
      ensures Valid()
      ensures amapClient == null && claudeHandler == null
    {
      amapClient := null;
      claudeHandler := null;
    }

    /** `get_amap_client()`: the client is created once, and assigned before
        it connects, so a failed first connection leaves an unconnected
        client behind. Then an unhealthy client is disconnected and connected
        again. `firstRun` is the first connection, `probeOk` whether the
        health probe answers, `reconnectRun` the reconnection and `stopped`
        whether stopping the server process goes through. */
    method GetAmapClient(firstRun: ConnectRun, probeOk: bool, reconnectRun: ConnectRun, stopped: bool)
      returns (r: Result<Client, Exc>)
      modifies this, amapClient
      requires Valid()
      ensures Valid() && amapClient != null
      ensures claudeHandler == old(claudeHandler)
      ensures old(amapClient) != null ==> amapClient == old(amapClient)
      ensures old(amapClient) == null ==> fresh(amapClient)
      ensures r.Ok? ==> r.value == amapClient && amapClient.isConnected && amapClient.hasSession
      // a new client whose connection fails is returned as the failure
      ensures old(amapClient) == null && !firstRun.Ready? ==>
        r == Err(Raise(MCPConnection, "连接失败: " + StepMessage(firstRun))) && !amapClient.isConnected
      // a healthy client is handed out untouched
      ensures old(amapClient) == null && firstRun.Ready? && probeOk ==> r.Ok?
      ensures old(amapClient) != null && old(amapClient.isConnected && amapClient.hasSession) && probeOk ==>
        r.Ok? && unchanged(amapClient)
      // an unhealthy one is reconnected, and the reconnection decides
      ensures (if old(amapClient) == null then firstRun.Ready? else true) &&
              !(probeOk && (old(amapClient) == null || old(amapClient.isConnected && amapClient.hasSession))) ==>
        (r.Ok? <==> reconnectRun.Ready?) &&
        (r.Err? ==> r.error == Raise(MCPConnection, "连接失败: " + StepMessage(reconnectRun)))
    {
      if amapClient == null {
        var created := new Client();
        amapClient := created;
        var connected := created.Connect(firstRun, stopped);
        if connected.Err? {
          return Err(connected.error);
        }
      }
      var client := amapClient;
      var healthy := client.HealthCheck(probeOk);
      if !healthy {
        client.Disconnect(stopped);
        var connected := client.Connect(reconnectRun, stopped);
        if connected.Err? {
          return Err(connected.error);
        }
      }
      return Ok(client);
    }

    /** `get_claude_handler()`: the handler is created once, after the
        client has been obtained; a failure there leaves no handler. */
    method GetClaudeHandler(firstRun: ConnectRun, probeOk: bool, reconnectRun: ConnectRun, stopped: bool)
      returns (r: Result<ClaudeHandler.Handler, Exc>)
      modifies this, amapClient
      requires Valid()
      ensures Valid()
      ensures old(claudeHandler) != null ==> r == Ok(old(claudeHandler)) && claudeHandler == old(claudeHandler)
      ensures old(claudeHandler) != null ==> unchanged(this) && (amapClient != null ==> unchanged(amapClient))
      ensures r.Ok? ==> r.value == claudeHandler && claudeHandler != null
      ensures old(claudeHandler) == null && r.Ok? ==> fresh(claudeHandler)
      ensures old(claudeHandler) == null && r.Err? ==> claudeHandler == null
    {
      if claudeHandler == null {
        var client := GetAmapClient(firstRun, probeOk, reconnectRun, stopped);
        if client.Err? {
          return Err(client.error);
        }
        claudeHandler := new ClaudeHandler.Handler();
      }
      return Ok(claudeHandler);
    }
  }
}
